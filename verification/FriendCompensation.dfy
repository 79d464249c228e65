/** When giving up on a request leaves the two directions of a friendship apart, and runs that show it. */
module FriendCompensation {
  import opened Prelude
  import opened FriendSaga
  import opened FriendCluster

  // ---- When compensation is safe ----

  predicate IsFailed(w: World, p: Pair)
    requires |w.shards| > 0
  {
    HasEdge(w, p) && EdgeAt(w, p).state == Failed
  }

  function RequestOf(w: World, p: Pair): Message
    requires |w.shards| > 0 && HasEdge(w, p)
  {
    Requested(p.user, p.friend, EdgeAt(w, p).eventId)
  }

  lemma FailedWasBegun(w: World, p: Pair)
    requires Good(w) && IsFailed(w, p)
    ensures var e := EdgeAt(w, p).eventId; e.Generated? && e.n in w.drawn && e in w.begunBy && w.begunBy[e] == p
    ensures p.user > 0 && p.friend > 0 && Home(w, p.user) != Home(w, p.friend)
    ensures p !in w.backfilled && p.Reverse() !in w.backfilled
  {
    assert RowSound(w, Home(w, p.user), p);
    assert p.Reverse().Reverse() == p;
    assert p.Reverse() in w.backfilled ==> p.Reverse().Reverse() in w.backfilled;
  }

  /**
   * A compensated edge faces an ACTIVE reverse if and only if its own request was acknowledged; the reverse
   * request is never accepted then, and nothing is acknowledged that the broker never took.
   */
  lemma FailedFacesActiveExactly(w: World, p: Pair)
    requires Good(w) && IsFailed(w, p)
    ensures IsActive(w, p.Reverse()) <==> Applied(p.user, p.friend, EdgeAt(w, p).eventId) in w.emitted
    ensures Accepted(p.user, p.friend) !in w.emitted
    ensures IsActive(w, p.Reverse()) ==> RequestOf(w, p) in w.broker
  {
    FailedWasBegun(w, p);
    NeverAccepted(w, p);
    AcknowledgedWhenActive(w, p.Reverse());
    forall f | Applied(p.user, p.friend, f) in w.emitted ensures f == EdgeAt(w, p).eventId && RequestOf(w, p) in w.broker {
      WrittenIsSound(w, Applied(p.user, p.friend, f));
      WrittenIsSound(w, Requested(p.user, p.friend, f));
      OwnAcknowledgement(w, p, f);
    }
  }

  lemma NeverAccepted(w: World, p: Pair)
    requires Good(w) && IsFailed(w, p)
    ensures Accepted(p.user, p.friend) !in w.emitted
  {
    if Accepted(p.user, p.friend) in w.emitted {
      AcceptedIsMutual(w, p.user, p.friend);
      assert false;
    }
  }

  /** friend_accepted says that the inviter's own edge was activated by an acknowledged request. */
  lemma AcceptedIsMutual(w: World, inviter: int, accepter: int)
    requires Sound(w) && Accepted(inviter, accepter) in w.emitted
    ensures |w.shards| > 0 && IsActive(w, Pair(inviter, accepter))
  {
    WrittenIsSound(w, Accepted(inviter, accepter));
    var e :| Applied(accepter, inviter, e) in w.emitted;
    WrittenIsSound(w, Applied(accepter, inviter, e));
  }

  lemma AcknowledgedWhenActive(w: World, q: Pair)
    requires Good(w) && q !in w.backfilled && Accepted(q.friend, q.user) !in w.emitted
    ensures IsActive(w, q) <==> exists f :: Applied(q.friend, q.user, f) in w.emitted
  {
    assert Announced(w, q);
    NoAckNoCount(w.emitted, q.friend, q.user);
  }

  lemma OwnAcknowledgement(w: World, p: Pair, f: EventId)
    requires |w.shards| > 0 && HasEdge(w, p)
    requires MessageSound(w, Applied(p.user, p.friend, f)) && MessageSound(w, Requested(p.user, p.friend, f))
    ensures f == EdgeAt(w, p).eventId && RequestOf(w, p) in w.broker
  {
  }

  /** The request can still reach the other shard: taken, in some relay's hands, or open to a claim. */
  ghost predicate CanLeave(w: World, p: Pair)
    requires |w.shards| > 0 && HasEdge(w, p)
  {
    || RequestOf(w, p) in w.broker
    || InHand(w, RequestOf(w, p))
    || exists i: nat :: Claimable(w, i, EdgeAt(w, p).eventId)
  }

  ghost predicate InHand(w: World, m: Message) { exists c :: c in w.held && c.message == m }

  predicate Claimable(w: World, i: nat, e: EventId) { HasRow(w, i, e, Unsent) || HasRow(w, i, e, Sending) }

  ghost predicate Reaches(w: World, q: Pair) { exists tail :: ActiveAfter(w, tail, q) }

  ghost predicate ActiveAfter(w: World, tail: seq<Step>, q: Pair) {
    |Run(w, tail).shards| > 0 && IsActive(Run(w, tail), q)
  }

  lemma FailedStays(w: World, s: Step, p: Pair)
    requires Good(w) && IsFailed(w, p)
    ensures |Next(w, s).shards| > 0 && IsFailed(Next(w, s), p) && EdgeAt(Next(w, s), p) == EdgeAt(w, p)
  {
    StepGrows(w, s);
    match s
    case AcceptInvite(source, target, candidate) => InviteLeavesFailed(w, source, target, candidate, p);
    case Deliver(m, newId) => DeliveryLeavesFailed(w, m, newId, p);
    case Compensate(i, chosen) =>
      CompensateOnlyFails(w, i, chosen);
      OnlyFailsLeavesFailed(w, AfterCompensate(w, i, chosen), p);
    case _ => RelayStepsChangeStatuses(w, s);
  }

  lemma OnlyFailsLeavesFailed(w: World, v: World, p: Pair)
    requires OnlyFails(w, v) && IsFailed(w, p)
    ensures IsFailed(v, p) && EdgeAt(v, p) == EdgeAt(w, p)
  {
  }

  lemma InviteLeavesFailed(w: World, source: int, target: int, candidate: nat, p: Pair)
    requires Good(w) && IsFailed(w, p)
    ensures var v := AfterAcceptInvite(w, source, target, candidate);
      |v.shards| > 0 && IsFailed(v, p) && EdgeAt(v, p) == EdgeAt(w, p)
  {
    if CanBegin(w, source, target, candidate) {
      if HasEdge(w, Pair(source, target)) {
        RetryKeepsEdges(w, source, target, candidate);
      } else {
        BeginWrites(w, source, target, candidate);
        OneEdgeElsewhere(w, AfterAcceptInvite(w, source, target, candidate), Pair(source, target), Edge(Pending, Generated(candidate)), p);
      }
    }
  }

  lemma DeliveryLeavesFailed(w: World, m: Message, newId: nat, p: Pair)
    requires Good(w) && IsFailed(w, p)
    ensures var v := AfterDeliver(w, m, newId); |v.shards| > 0 && IsFailed(v, p) && EdgeAt(v, p) == EdgeAt(w, p)
  {
    match m
    case Requested(source, target, e) => ApplyLeavesFailed(w, source, target, e, newId, p);
    case Applied(source, target, e) => ConfirmLeavesFailed(w, source, target, e, newId, p);
    case Accepted(_, _) =>
  }

  lemma ApplyLeavesFailed(w: World, source: int, target: int, e: EventId, newId: nat, p: Pair)
    requires |w.shards| > 0 && IsFailed(w, p)
    ensures var v := AfterDeliver(w, Requested(source, target, e), newId);
      |v.shards| > 0 && IsFailed(v, p) && EdgeAt(v, p) == EdgeAt(w, p)
  {
    var edges := w.shards[Home(w, target)].edges;
    assert p in edges ==> p in UpsertActive(edges, Pair(target, source), e);
    assert p in edges && edges[p].state == Failed ==> UpsertActive(edges, Pair(target, source), e)[p] == edges[p];
  }

  lemma ConfirmLeavesFailed(w: World, source: int, target: int, e: EventId, newId: nat, p: Pair)
    requires |w.shards| > 0 && IsFailed(w, p)
    ensures var v := AfterDeliver(w, Applied(source, target, e), newId);
      |v.shards| > 0 && IsFailed(v, p) && EdgeAt(v, p) == EdgeAt(w, p)
  {
  }

  /** The row of e is as it was on every shard, and hands and broker hold what they held. */
  ghost predicate RowUntouched(w: World, v: World, e: EventId) {
    && |v.shards| == |w.shards| && v.held == w.held && v.broker == w.broker
    && (forall i :: 0 <= i < |w.shards| ==>
          (e in v.shards[i].outbox <==> e in w.shards[i].outbox)
          && (e in w.shards[i].outbox ==> v.shards[i].outbox[e] == w.shards[i].outbox[e]))
  }

  lemma InviteAddsOtherRow(w: World, source: int, target: int, candidate: nat, p: Pair)
    requires Good(w) && IsFailed(w, p)
    ensures RowUntouched(w, AfterAcceptInvite(w, source, target, candidate), EdgeAt(w, p).eventId)
  {
    FailedWasBegun(w, p);
    var q := Pair(source, target);
    if CanBegin(w, source, target, candidate) {
      if HasEdge(w, q) {
        RetryRow(w, source, target, candidate);
        assert RowSound(w, Home(w, source), q);
      } else {
        FirstRow(w, source, target, candidate);
      }
    }
  }

  lemma DeliveryAddsOtherRow(w: World, m: Message, newId: nat, e: EventId)
    requires Good(w) && e.Generated? && e.n in w.drawn
    ensures RowUntouched(w, AfterDeliver(w, m, newId), e)
  {
    var v := AfterDeliver(w, m, newId);
    if v != w {
      var i := if m.Requested? then Home(w, m.target) else Home(w, m.source);
      if v.shards[i].edges == w.shards[i].edges {
        DeliveryAddsNoRow(w, m, newId, i);
      } else {
        var written := if m.Requested? then Applied(m.source, m.target, m.eventId) else Accepted(m.target, m.source);
        DeliveryAddsRow(w, m, newId, i, written);
      }
    }
  }

  /** Neither taken nor in hand nor open to a claim. */
  ghost predicate Buried(w: World, e: EventId, m: Message) {
    m !in w.broker && !InHand(w, m) && forall j: nat :: !Claimable(w, j, e)
  }

  lemma UntouchedStaysBuried(w: World, v: World, e: EventId, m: Message)
    requires RowUntouched(w, v, e) && Buried(w, e, m)
    ensures Buried(v, e, m)
  {
    forall j: nat ensures !Claimable(v, j, e) { assert !Claimable(w, j, e); }
  }

  lemma CompensationTouchesNoRow(w: World, i: nat, chosen: set<Pair>, e: EventId)
    requires |w.shards| > 0
    ensures RowUntouched(w, AfterCompensate(w, i, chosen), e)
  {
    CompensateOnlyFails(w, i, chosen);
  }

  lemma RelayStepsKeepBuried(w: World, s: Step, e: EventId, m: Message)
    requires Wired(w) && RelayStep(s) && Buried(w, e, m)
    requires forall k :: k in w.written ==> (w.written[k] == m <==> k == e)
    ensures Buried(Next(w, s), e, m)
  {
    var v := Next(w, s);
    match s
    case ClaimRow(worker, i, id) => ClaimsOther(w, worker, i, id, e, m);
    case Reclaim(i, id) => ReclaimsOther(w, i, id, e);
    case Publish(c) => PublishesOther(w, c, e, m);
    case MarkSent(c) => MarksOther(w, c, Sent, e, m);
    case MarkFailed(c, dead) => MarksOther(w, c, if dead then Dead else Unsent, e, m);
    case Forget(c) => ForgetsOther(w, c, e, m);
    case Reap(i, id) => ReapsOther(w, i, id, e);
  }

  lemma ReclaimsOther(w: World, i: nat, id: EventId, e: EventId)
    requires forall j: nat :: !Claimable(w, j, e)
    ensures var v := AfterReclaim(w, i, id); v.held == w.held && v.broker == w.broker && forall j: nat :: !Claimable(v, j, e)
  {
    var v := AfterReclaim(w, i, id);
    assert !Claimable(w, i, e);
    forall j: nat ensures !Claimable(v, j, e) { assert !Claimable(w, j, e); }
  }

  lemma ReapsOther(w: World, i: nat, id: EventId, e: EventId)
    requires forall j: nat :: !Claimable(w, j, e)
    ensures var v := AfterReap(w, i, id); v.held == w.held && v.broker == w.broker && forall j: nat :: !Claimable(v, j, e)
  {
    var v := AfterReap(w, i, id);
    forall j: nat ensures !Claimable(v, j, e) { assert !Claimable(w, j, e); }
  }

  lemma PublishesOther(w: World, c: Claim, e: EventId, m: Message)
    requires Buried(w, e, m)
    ensures Buried(AfterPublish(w, c), e, m)
  {
    assert c in w.held ==> c.message != m;
    forall j: nat ensures !Claimable(AfterPublish(w, c), j, e) { assert !Claimable(w, j, e); }
  }

  lemma ForgetsOther(w: World, c: Claim, e: EventId, m: Message)
    requires Buried(w, e, m)
    ensures Buried(w.(held := w.held - {c}), e, m)
  {
    forall j: nat ensures !Claimable(w.(held := w.held - {c}), j, e) { assert !Claimable(w, j, e); }
  }

  /** Whoever holds a claim under e holds the request, and the request lies under e only. */
  lemma OtherKeysCarryOtherMessages(w: World, p: Pair)
    requires Good(w) && IsFailed(w, p)
    ensures var e, m := EdgeAt(w, p).eventId, RequestOf(w, p); forall id :: id in w.written ==> (w.written[id] == m <==> id == e)
  {
    FailedWasBegun(w, p);
    var e := EdgeAt(w, p).eventId;
    forall id | id in w.written ensures w.written[id] == RequestOf(w, p) <==> id == e {
      assert RowWritten(w, id);
      if id == e { RequestsAreWrittenOnce(w, e); }
    }
  }

  lemma ClaimsOther(w: World, worker: int, i: nat, id: EventId, e: EventId, m: Message)
    requires Wired(w) && (forall k :: k in w.written ==> (w.written[k] == m <==> k == e))
    requires !InHand(w, m) && forall j: nat :: !Claimable(w, j, e)
    ensures var v := AfterClaim(w, worker, i, id); !InHand(v, m) && v.broker == w.broker && forall j: nat :: !Claimable(v, j, e)
  {
    var v := AfterClaim(w, worker, i, id);
    if HasRow(w, i, id, Unsent) {
      assert RowsCarry(w, i) && !Claimable(w, i, e);
      forall j: nat ensures !Claimable(v, j, e) { assert !Claimable(w, j, e); }
    }
  }

  lemma MarksOther(w: World, c: Claim, status: RelayStatus, e: EventId, m: Message)
    requires Wired(w) && Buried(w, e, m) && forall k :: k in w.written ==> (w.written[k] == m <==> k == e)
    ensures Buried(AfterMark(w, c, status), e, m)
  {
    var v := AfterMark(w, c, status);
    assert c in w.held ==> c.id != e;
    forall j: nat ensures !Claimable(v, j, e) { assert !Claimable(w, j, e); }
  }

  /** Rows other than e's, claims and messages other than the request: nothing that lets it leave. */
  lemma StepKeepsBuried(w: World, s: Step, p: Pair)
    requires Good(w) && IsFailed(w, p) && Buried(w, EdgeAt(w, p).eventId, RequestOf(w, p))
    ensures Buried(Next(w, s), EdgeAt(w, p).eventId, RequestOf(w, p))
  {
    FailedWasBegun(w, p);
    var e, m := EdgeAt(w, p).eventId, RequestOf(w, p);
    OtherKeysCarryOtherMessages(w, p);
    match s
    case AcceptInvite(source, target, candidate) =>
      InviteAddsOtherRow(w, source, target, candidate, p);
      UntouchedStaysBuried(w, AfterAcceptInvite(w, source, target, candidate), e, m);
    case Deliver(d, newId) =>
      DeliveryAddsOtherRow(w, d, newId, e);
      UntouchedStaysBuried(w, AfterDeliver(w, d, newId), e, m);
    case Compensate(i, chosen) =>
      CompensationTouchesNoRow(w, i, chosen, e);
      UntouchedStaysBuried(w, AfterCompensate(w, i, chosen), e, m);
    case _ => RelayStepsKeepBuried(w, s, e, m);
  }

  /** Compensated, not facing an ACTIVE edge, and with no way to come to it. */
  ghost predicate SafeCompensation(w: World, p: Pair) {
    Good(w) && IsFailed(w, p) && !IsActive(w, p.Reverse()) && (IsFailed(w, p.Reverse()) || !CanLeave(w, p))
  }

  lemma CompensationStaysSafe(w: World, s: Step, p: Pair)
    requires SafeCompensation(w, p)
    ensures SafeCompensation(Next(w, s), p)
  {
    StepKeepsSound(w, s);
    StepStaysWired(w, s);
    FailedStays(w, s, p);
    if IsFailed(w, p.Reverse()) {
      FailedStays(w, s, p.Reverse());
    } else {
      StepKeepsBuried(w, s, p);
      FailedFacesActiveExactly(Next(w, s), p);
    }
  }

  lemma {:induction false} BuriedForever(w: World, p: Pair, tail: seq<Step>)
    requires SafeCompensation(w, p)
    ensures SafeCompensation(Run(w, tail), p)
  {
    if tail != [] {
      var front := tail[..|tail| - 1];
      BuriedForever(w, p, front);
      CompensationStaysSafe(Run(w, front), tail[|tail| - 1], p);
    }
  }

  // ---- and when it is not ----

  lemma {:induction false} RunCons(w: World, s: Step, tail: seq<Step>)
    ensures Run(w, [s] + tail) == Run(Next(w, s), tail)
  {
    if tail == [] {
      assert [s] + tail == [s] && [s][..0] == [];
    } else {
      assert ([s] + tail)[..|tail|] == [s] + tail[..|tail| - 1];
      RunCons(w, s, tail[..|tail| - 1]);
    }
  }

  lemma ReachesThrough(w: World, s: Step, q: Pair)
    requires Reaches(Next(w, s), q)
    ensures Reaches(w, q)
  {
    var tail :| ActiveAfter(Next(w, s), tail, q);
    RunCons(w, s, tail);
    assert ActiveAfter(w, [s] + tail, q);
  }

  lemma FreshNumber(used: set<nat>) returns (n: nat)
    ensures forall x :: x in used ==> x < n
  {
    if used == {} {
      n := 0;
    } else {
      var x := SomeElement(used);
      var m := FreshNumber(used - {x});
      n := if m > x then m else x + 1;
      forall y | y in used ensures y < n {
        if y != x { assert y in used - {x}; }
      }
    }
  }

  lemma NoOtherHolder(w: World, p: Pair)
    requires Good(w) && IsFailed(w, p) && !HasEdge(w, p.Reverse())
    ensures Holders(EdgesOf(w, p.friend), EdgeAt(w, p).eventId) == {}
  {
    FailedWasBegun(w, p);
    var i := Home(w, p.friend);
    forall x | x in w.shards[i].edges && w.shards[i].edges[x].eventId == EdgeAt(w, p).eventId ensures x == p.Reverse() {
      assert RowSound(w, i, x);
    }
  }

  lemma ArrivalActivates(w: World, p: Pair, newId: nat)
    requires Good(w) && IsFailed(w, p) && !IsFailed(w, p.Reverse()) && RequestOf(w, p) in w.broker && newId !in w.drawn
    ensures var v := AfterDeliver(w, RequestOf(w, p), newId); |v.shards| > 0 && IsActive(v, p.Reverse())
  {
    FailedWasBegun(w, p);
    FreshIdsHaveNoRow(w, Home(w, p.friend), newId);
    if !HasEdge(w, p.Reverse()) { NoOtherHolder(w, p); }
    ApplyActivates(w, p.user, p.friend, EdgeAt(w, p).eventId, newId);
  }

  lemma ApplyActivates(w: World, source: int, target: int, e: EventId, newId: nat)
    requires |w.shards| > 0 && source > 0 && target > 0 && source != target && newId !in w.drawn
    requires Requested(source, target, e) in w.broker && Generated(newId) !in w.shards[Home(w, target)].outbox
    requires var q := Pair(target, source); !IsFailed(w, q) && (HasEdge(w, q) || Holders(EdgesOf(w, target), e) == {})
    ensures var v := AfterDeliver(w, Requested(source, target, e), newId); |v.shards| > 0 && IsActive(v, Pair(target, source))
  {
    var edges, q := w.shards[Home(w, target)].edges, Pair(target, source);
    var after := UpsertActive(edges, q, e);
    assert q in after && after[q].state == Active;
  }

  lemma TakenReaches(w: World, p: Pair)
    requires Good(w) && IsFailed(w, p) && !IsFailed(w, p.Reverse()) && RequestOf(w, p) in w.broker
    ensures Reaches(w, p.Reverse())
  {
    var n := FreshNumber(w.drawn);
    ArrivalActivates(w, p, n);
    assert ActiveAfter(Next(w, Deliver(RequestOf(w, p), n)), [], p.Reverse());
    ReachesThrough(w, Deliver(RequestOf(w, p), n), p.Reverse());
  }

  /** A relay step leaves p FAILED with its request, and the reverse as it was. */
  lemma RelayKeepsPair(w: World, s: Step, p: Pair)
    requires Good(w) && IsFailed(w, p) && !IsFailed(w, p.Reverse()) && RelayStep(s)
    ensures var v := Next(w, s);
      Good(v) && IsFailed(v, p) && EdgeAt(v, p) == EdgeAt(w, p) && !IsFailed(v, p.Reverse())
  {
    StepKeepsSound(w, s);
    StepStaysWired(w, s);
    RelayStepsChangeStatuses(w, s);
  }

  lemma HeldReaches(w: World, p: Pair, c: Claim)
    requires Good(w) && IsFailed(w, p) && !IsFailed(w, p.Reverse()) && c in w.held && c.message == RequestOf(w, p)
    ensures Reaches(w, p.Reverse())
  {
    RelayKeepsPair(w, Publish(c), p);
    TakenReaches(Next(w, Publish(c)), p);
    ReachesThrough(w, Publish(c), p.Reverse());
  }

  lemma UnsentReaches(w: World, p: Pair, i: nat)
    requires Good(w) && IsFailed(w, p) && !IsFailed(w, p.Reverse()) && HasRow(w, i, EdgeAt(w, p).eventId, Unsent)
    ensures Reaches(w, p.Reverse())
  {
    var e, m := EdgeAt(w, p).eventId, RequestOf(w, p);
    var s := ClaimRow(0, i, e);
    RelayKeepsPair(w, s, p);
    OtherKeysCarryOtherMessages(w, p);
    assert RowsCarry(w, i);
    HeldReaches(Next(w, s), p, Claim(0, i, e, m));
    ReachesThrough(w, s, p.Reverse());
  }

  lemma ClaimableReaches(w: World, p: Pair, i: nat)
    requires Good(w) && IsFailed(w, p) && !IsFailed(w, p.Reverse()) && Claimable(w, i, EdgeAt(w, p).eventId)
    ensures Reaches(w, p.Reverse())
  {
    var e := EdgeAt(w, p).eventId;
    if HasRow(w, i, e, Unsent) {
      UnsentReaches(w, p, i);
    } else {
      RelayKeepsPair(w, Reclaim(i, e), p);
      UnsentReaches(Next(w, Reclaim(i, e)), p, i);
      ReachesThrough(w, Reclaim(i, e), p.Reverse());
    }
  }

  /**
   * A compensated edge can come to face an ACTIVE reverse, now or later, if and only if it already does, or
   * its request can still leave the shard and the reverse was not compensated itself.
   */
  lemma CompensationIsOneSidedExactly(w: World, p: Pair)
    requires Good(w) && IsFailed(w, p)
    ensures Reaches(w, p.Reverse()) <==> IsActive(w, p.Reverse()) || (CanLeave(w, p) && !IsFailed(w, p.Reverse()))
  {
    var q := p.Reverse();
    if IsActive(w, q) {
      assert ActiveAfter(w, [], q);
    } else if CanLeave(w, p) && !IsFailed(w, q) {
      if RequestOf(w, p) in w.broker {
        TakenReaches(w, p);
      } else if InHand(w, RequestOf(w, p)) {
        var c :| c in w.held && c.message == RequestOf(w, p);
        HeldReaches(w, p, c);
      } else {
        var i: nat :| Claimable(w, i, EdgeAt(w, p).eventId);
        ClaimableReaches(w, p, i);
      }
    } else {
      forall tail ensures !ActiveAfter(w, tail, q) { BuriedForever(w, p, tail); }
    }
  }

  /**
   * So a compensation that finds the request's row DEAD stays one-sided-safe for ever exactly when no relay
   * has the request in hand and the broker never took it, or the other direction was compensated too.
   */
  lemma CompensationIsSafeExactly(start: World, steps: seq<Step>, i: nat, chosen: set<Pair>, p: Pair)
    requires Backfilled(start) && p in chosen
    requires var w := Run(start, steps); i < |w.shards| && forall q :: q in chosen ==> Doomed(w.shards[i], q)
    ensures var w := Run(start, steps); var v := AfterCompensate(w, i, chosen);
      && |w.shards| > 0 && HasEdge(w, p) && |v.shards| > 0 && IsFailed(v, p)
      && (Reaches(v, p.Reverse()) <==>
            IsActive(w, p.Reverse())
            || ((RequestOf(w, p) in w.broker || InHand(w, RequestOf(w, p))) && !IsFailed(w, p.Reverse())))
  {
    RunIsSound(start, steps);
    var w := Run(start, steps);
    CompensatedNow(w, AfterCompensate(w, i, chosen), i, chosen, p);
  }

  lemma CompensationStaysGood(w: World, i: nat, chosen: set<Pair>)
    requires Good(w)
    ensures Good(AfterCompensate(w, i, chosen))
  {
    CompensateKeepsSound(w, i, chosen);
    CompensateOnlyFails(w, i, chosen);
    AddingNoRowStaysWired(w, AfterCompensate(w, i, chosen));
  }

  lemma CompensatedNow(w: World, v: World, i: nat, chosen: set<Pair>, p: Pair)
    requires Good(w) && i < |w.shards| && p in chosen && forall q :: q in chosen ==> Doomed(w.shards[i], q)
    requires v == AfterCompensate(w, i, chosen)
    ensures HasEdge(w, p) && |v.shards| > 0 && IsFailed(v, p)
    ensures Reaches(v, p.Reverse()) <==>
              IsActive(w, p.Reverse())
              || ((RequestOf(w, p) in w.broker || InHand(w, RequestOf(w, p))) && !IsFailed(w, p.Reverse()))
  {
    CompensationStaysGood(w, i, chosen);
    DoomedTurnsFailed(w, i, chosen, p);
    DoomedIsUnclaimable(w, i, p);
    CompensationTouchesNoRow(w, i, chosen, EdgeAt(w, p).eventId);
    FailedNow(w, v, p);
  }

  lemma FailedNow(w: World, v: World, p: Pair)
    requires |w.shards| > 0 && HasEdge(w, p) && Good(v) && IsFailed(v, p) && EdgeAt(v, p).eventId == EdgeAt(w, p).eventId
    requires IsFailed(v, p.Reverse()) <==> IsFailed(w, p.Reverse())
    requires IsActive(v, p.Reverse()) <==> IsActive(w, p.Reverse())
    requires RowUntouched(w, v, EdgeAt(w, p).eventId) && forall j: nat :: !Claimable(w, j, EdgeAt(w, p).eventId)
    ensures Reaches(v, p.Reverse()) <==>
              IsActive(w, p.Reverse())
              || ((RequestOf(w, p) in w.broker || InHand(w, RequestOf(w, p))) && !IsFailed(w, p.Reverse()))
  {
    LeavesByHandOnly(w, v, p);
    CompensationIsOneSidedExactly(v, p);
  }

  lemma LeavesByHandOnly(w: World, v: World, p: Pair)
    requires |w.shards| > 0 && |v.shards| > 0 && HasEdge(w, p) && HasEdge(v, p) && EdgeAt(v, p).eventId == EdgeAt(w, p).eventId
    requires RowUntouched(w, v, EdgeAt(w, p).eventId) && forall j: nat :: !Claimable(w, j, EdgeAt(w, p).eventId)
    ensures CanLeave(v, p) <==> RequestOf(w, p) in w.broker || InHand(w, RequestOf(w, p))
  {
    forall j: nat ensures !Claimable(v, j, EdgeAt(w, p).eventId) { assert !Claimable(w, j, EdgeAt(w, p).eventId); }
  }

  lemma DoomedTurnsFailed(w: World, i: nat, chosen: set<Pair>, p: Pair)
    requires Good(w) && i < |w.shards| && p in chosen && forall q :: q in chosen ==> Doomed(w.shards[i], q)
    ensures var v := AfterCompensate(w, i, chosen);
      && HasEdge(w, p) && |v.shards| > 0 && IsFailed(v, p) && EdgeAt(v, p).eventId == EdgeAt(w, p).eventId
      && v.broker == w.broker && v.held == w.held
      && (IsFailed(v, p.Reverse()) <==> IsFailed(w, p.Reverse())) && (IsActive(v, p.Reverse()) <==> IsActive(w, p.Reverse()))
  {
    assert Doomed(w.shards[i], p) && RowSound(w, i, p);
    FailEdgesHere(w, i, chosen, p);
  }

  lemma FailEdgesHere(w: World, i: nat, chosen: set<Pair>, p: Pair)
    requires i < |w.shards| && p in chosen && forall q :: q in chosen ==> Doomed(w.shards[i], q)
    requires Home(w, p.user) == i && Home(w, p.friend) != i
    ensures var v := AfterCompensate(w, i, chosen);
      && HasEdge(w, p) && |v.shards| > 0 && IsFailed(v, p) && EdgeAt(v, p).eventId == EdgeAt(w, p).eventId
      && v.broker == w.broker && v.held == w.held
      && (IsFailed(v, p.Reverse()) <==> IsFailed(w, p.Reverse())) && (IsActive(v, p.Reverse()) <==> IsActive(w, p.Reverse()))
  {
    var v := AfterCompensate(w, i, chosen);
    assert Doomed(w.shards[i], p);
    assert p in FailEdges(w.shards[i].edges, chosen);
    assert v.shards[Home(w, p.friend)] == w.shards[Home(w, p.friend)];
  }

  lemma DoomedIsUnclaimable(w: World, i: nat, p: Pair)
    requires Good(w) && i < |w.shards| && Doomed(w.shards[i], p)
    ensures HasEdge(w, p) && forall j: nat :: !Claimable(w, j, EdgeAt(w, p).eventId)
  {
    assert RowSound(w, i, p);
    PendingRequestIsWritten(w, p);
    var e := EdgeAt(w, p).eventId;
    assert RowsCarry(w, i);
    forall j: nat ensures !Claimable(w, j, e) {
      assert j < |w.shards| ==> RowsCarry(w, j);
    }
  }

  // ---- Runs that the guarantees above must allow ----

  const EMPTY_START := World([Tables(map[], map[]), Tables(map[], map[])], {}, {}, map[], [], {}, map[], {})

  ghost predicate Reachable(w: World) { exists steps :: Run(EMPTY_START, steps) == w }

  lemma Go(w: World, s: Step) returns (v: World)
    requires Reachable(w)
    ensures v == Next(w, s) && Reachable(v)
  {
    v := Next(w, s);
    var steps :| Run(EMPTY_START, steps) == w;
    assert (steps + [s])[..|steps|] == steps;
    assert Run(EMPTY_START, steps + [s]) == v;
  }

  /** A relay claims an unsent row and publishes it. */
  lemma Send(w: World, i: nat, id: EventId) returns (v: World)
    requires Reachable(w) && HasRow(w, i, id, Unsent)
    ensures var m := w.shards[i].outbox[id].message;
      && Reachable(v) && v == PutStatus(w, i, id, Sending).(held := w.held + {Claim(0, i, id, m)}, broker := w.broker + {m})
  {
    var c := Claim(0, i, id, w.shards[i].outbox[id].message);
    v := Go(w, ClaimRow(0, i, id));
    assert c in v.held;
    v := Go(v, Publish(c));
  }

  lemma FirstBegin()
    ensures AfterBegin(Tables(map[], map[]), 2, 1, Some(Generated(0)))
      == Ok(Tables(map[Pair(2, 1) := Edge(Pending, Generated(0))],
                   map[Generated(0) := OutboxRow(Requested(2, 1, Generated(0)), Unsent)]))
  {
    assert Holders(map[], Generated(0)) == {};
  }

  lemma FirstInvite()
    ensures CanBegin(EMPTY_START, 2, 1, 0)
    ensures var m := Requested(2, 1, Generated(0));
      AfterAcceptInvite(EMPTY_START, 2, 1, 0)
        == World([Tables(map[Pair(2, 1) := Edge(Pending, Generated(0))], map[Generated(0) := OutboxRow(m, Unsent)]), Tables(map[], map[])],
                 {}, {}, map[Generated(0) := m], [m], {0}, map[Generated(0) := Pair(2, 1)], {})
  {
    FirstBegin();
  }

  /** User 2 has asked user 1. */
  lemma OneRequest() returns (w: World)
    ensures Reachable(w) && Backfilled(EMPTY_START)
    ensures |w.shards| == 2 && w.drawn == {0} && w.emitted == [Requested(2, 1, Generated(0))] && w.held == {} && w.broker == {}
    ensures w.shards[0] == Tables(map[Pair(2, 1) := Edge(Pending, Generated(0))],
                                  map[Generated(0) := OutboxRow(Requested(2, 1, Generated(0)), Unsent)])
    ensures w.shards[1] == Tables(map[], map[])
  {
    assert Run(EMPTY_START, []) == EMPTY_START;
    w := Go(EMPTY_START, AcceptInvite(2, 1, 0));
    FirstInvite();
  }

  lemma SecondBegin()
    ensures AfterBegin(Tables(map[], map[]), 1, 2, Some(Generated(1)))
      == Ok(Tables(map[Pair(1, 2) := Edge(Pending, Generated(1))],
                   map[Generated(1) := OutboxRow(Requested(1, 2, Generated(1)), Unsent)]))
  {
    assert Holders(map[], Generated(1)) == {};
  }

  /** User 1 has asked user 2 as well. */
  lemma BothAsk() returns (w: World)
    ensures Reachable(w) && |w.shards| == 2 && w.drawn == {0, 1}
    ensures w.emitted == [Requested(2, 1, Generated(0)), Requested(1, 2, Generated(1))]
    ensures w.shards[0] == Tables(map[Pair(2, 1) := Edge(Pending, Generated(0))],
                                  map[Generated(0) := OutboxRow(Requested(2, 1, Generated(0)), Unsent)])
    ensures w.shards[1] == Tables(map[Pair(1, 2) := Edge(Pending, Generated(1))],
                                  map[Generated(1) := OutboxRow(Requested(1, 2, Generated(1)), Unsent)])
  {
    var u := OneRequest();
    w := Go(u, AcceptInvite(1, 2, 1));
    SecondBegin();
  }

  /** The broker has taken both requests. */
  lemma TwoRequests() returns (w: World)
    ensures Reachable(w) && |w.shards| == 2 && w.drawn == {0, 1}
    ensures w.emitted == [Requested(2, 1, Generated(0)), Requested(1, 2, Generated(1))]
    ensures Requested(2, 1, Generated(0)) in w.broker && Requested(1, 2, Generated(1)) in w.broker
    ensures w.shards[0].edges == map[Pair(2, 1) := Edge(Pending, Generated(0))]
    ensures w.shards[1].edges == map[Pair(1, 2) := Edge(Pending, Generated(1))]
    ensures w.shards[0].outbox.Keys == {Generated(0)} && w.shards[1].outbox.Keys == {Generated(1)}
  {
    w := BothAsk();
    w := Send(w, 0, Generated(0));
    w := Send(w, 1, Generated(1));
  }

  lemma FirstRequestArrives() returns (w: World)
    ensures Reachable(w) && |w.shards| == 2 && w.drawn == {0, 1, 2} && Requested(1, 2, Generated(1)) in w.broker
    ensures w.emitted == [Requested(2, 1, Generated(0)), Requested(1, 2, Generated(1)), Applied(2, 1, Generated(0))]
    ensures w.shards[0].edges == map[Pair(2, 1) := Edge(Pending, Generated(0))] && w.shards[0].outbox.Keys == {Generated(0)}
    ensures IsActive(w, Pair(1, 2))
  {
    w := TwoRequests();
    w := Go(w, Deliver(Requested(2, 1, Generated(0)), 2));
    assert w.shards[1].edges[Pair(1, 2)].state == Active;
  }

  /** Crossing requests can make both edges ACTIVE and never publish friend_accepted. */
  lemma CrossingRequestsPublishNothing() returns (w: World)
    ensures Reachable(w) && |w.shards| == 2 && IsActive(w, Pair(1, 2)) && IsActive(w, Pair(2, 1))
    ensures Accepted(1, 2) !in w.emitted && Accepted(2, 1) !in w.emitted
  {
    var u := FirstRequestArrives();
    w := Go(u, Deliver(Requested(1, 2, Generated(1)), 3));
    SecondRequestArrives(u);
  }

  lemma SecondRequestArrives(u: World)
    requires |u.shards| == 2 && u.drawn == {0, 1, 2} && u.shards[0].outbox.Keys == {Generated(0)}
    requires Requested(1, 2, Generated(1)) in u.broker
    requires u.emitted == [Requested(2, 1, Generated(0)), Requested(1, 2, Generated(1)), Applied(2, 1, Generated(0))]
    requires u.shards[0].edges == map[Pair(2, 1) := Edge(Pending, Generated(0))] && IsActive(u, Pair(1, 2))
    ensures var w := Next(u, Deliver(Requested(1, 2, Generated(1)), 3));
      && |w.shards| == 2 && IsActive(w, Pair(1, 2)) && IsActive(w, Pair(2, 1))
      && Accepted(1, 2) !in w.emitted && Accepted(2, 1) !in w.emitted
  {
    var w := Next(u, Deliver(Requested(1, 2, Generated(1)), 3));
    var t := u.shards[0];
    var after := UpsertActive(t.edges, Pair(2, 1), Generated(1));
    assert after[Pair(2, 1)] == Edge(Active, Generated(0)) && after != t.edges;
    assert w.shards == u.shards[0 := w.shards[0]] && w.shards[0].edges == after;
    assert w.emitted == u.emitted + [Applied(1, 2, Generated(1))];
  }

  /** The broker took a request, the relay heard of an error instead, and buried the row. */
  lemma TakenButBuried() returns (w: World)
    ensures Reachable(w) && |w.shards| == 2 && w.drawn == {0} && Requested(2, 1, Generated(0)) in w.broker
    ensures w.shards[0] == Tables(map[Pair(2, 1) := Edge(Pending, Generated(0))],
                                  map[Generated(0) := OutboxRow(Requested(2, 1, Generated(0)), Dead)])
    ensures w.shards[1] == Tables(map[], map[])
  {
    var u := OneRequest();
    u := Send(u, 0, Generated(0));
    var c := Claim(0, 0, Generated(0), Requested(2, 1, Generated(0)));
    assert c in u.held && Generated(0) in u.shards[0].outbox;
    w := Go(u, MarkFailed(c, true));
  }

  /** Its edge is compensated. */
  lemma TakenButCompensated() returns (w: World)
    ensures Reachable(w) && |w.shards| == 2 && w.drawn == {0} && Requested(2, 1, Generated(0)) in w.broker
    ensures w.shards[0].edges == map[Pair(2, 1) := Edge(Failed, Generated(0))] && w.shards[1] == Tables(map[], map[])
  {
    var u := TakenButBuried();
    assert Doomed(u.shards[0], Pair(2, 1));
    assert FailEdges(u.shards[0].edges, {Pair(2, 1)}) == map[Pair(2, 1) := Edge(Failed, Generated(0))];
    w := Go(u, Compensate(0, {Pair(2, 1)}));
  }

  /** Compensating a request that was published after all leaves FAILED facing ACTIVE. */
  lemma CompensationCanBeOneSided() returns (w: World)
    ensures Reachable(w) && |w.shards| == 2 && IsActive(w, Pair(1, 2))
    ensures HasEdge(w, Pair(2, 1)) && EdgeAt(w, Pair(2, 1)).state == Failed
  {
    w := TakenButCompensated();
    assert Holders(map[], Generated(0)) == {};
    w := Go(w, Deliver(Requested(2, 1, Generated(0)), 1));
    assert Pair(1, 2) in w.shards[1].edges;
  }
}
