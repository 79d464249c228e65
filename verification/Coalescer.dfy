/** The economy coalescer: buckets, their once-only flushes, and what every waiter gets. */
module Coalescer {
  import opened Prelude
  import opened FarmDomain

  /** One user's commands of one type for one crop share a bucket. */
  datatype BucketKey = BucketKey(user: int, kind: CommandType, cropId: string)

  datatype Waiter = Waiter(id: nat, idem: string, qty: int)

  datatype Bucket = Bucket(key: BucketKey, waiters: seq<Waiter>, seen: map<string, int>, total: int,
                           /** once has been used; flush has taken its snapshot; the outcome has been handed out. */
                           fired: bool, snapped: bool, answered: bool)

  datatype Outcome = Sent(qty: int, result: int) | Expired

  datatype State = State(open: map<BucketKey, nat>, all: seq<Bucket>, nextWaiter: nat,
                         outcomes: map<nat, Outcome>,
                         /** History: the quantity of the one command each bucket sent, and where each waiter went. */
                         sent: map<nat, int>, home: map<nat, nat>)

  datatype Step =
    | Submit(key: BucketKey, idem: string, qty: int)
    | TimerFires(bucket: nat)
    | Flush(bucket: nat)
    | Answer(bucket: nat, result: int)

  function Start(): State { State(map[], [], 0, map[], map[], map[]) }

  function WithNewBucket(s: State, k: BucketKey): State {
    s.(open := s.open[k := |s.all|], all := s.all + [Bucket(k, [], map[], 0, false, false, false)])
  }

  /** The locked part of Submit: a first key adds its quantity; a sum over the limit fires the bucket and opens another. */
  function AfterSubmit(s: State, k: BucketKey, idem: string, qty: int): State {
    var s1 := if k in s.open then s else WithNewBucket(s, k);
    var b := s1.open[k];
    var w := Waiter(s.nextWaiter, idem, qty);
    if b >= |s1.all| then s
    else
      var bucket := s1.all[b];
      var isNew := idem !in bucket.seen || bucket.seen[idem] == 0;
      var marked := if isNew then bucket.(seen := bucket.seen[idem := qty]) else bucket;
      var add := if isNew then qty else 0;
      if add > 0 && marked.total + add > MAX_ECONOMY_QUANTITY then
        var s2 := WithNewBucket(s1.(all := s1.all[b := marked.(fired := true)]), k);
        s2.(all := s2.all[|s1.all| := Bucket(k, [w], map[idem := qty], qty, false, false, false)],
            nextWaiter := s.nextWaiter + 1, home := s.home[w.id := |s1.all|])
      else
        s1.(all := s1.all[b := marked.(total := marked.total + add, waiters := marked.waiters + [w])],
            nextWaiter := s.nextWaiter + 1, home := s.home[w.id := b])
  }

  /** once.Do: the timer and the overflow compete, and the first one wins. */
  function AfterTimer(s: State, b: nat): State {
    if b >= |s.all| then s else s.(all := s.all[b := s.all[b].(fired := true)])
  }

  /** The locked part of flush: the bucket is closed and its content is final. */
  function AfterFlush(s: State, b: nat): State {
    if b >= |s.all| || !s.all[b].fired || s.all[b].snapped then s
    else
      var k := s.all[b].key;
      s.(all := s.all[b := s.all[b].(snapped := true)],
         open := if k in s.open && s.open[k] == b then s.open - {k} else s.open,
         sent := if s.all[b].waiters != [] && s.all[b].total > 0 then s.sent[b := s.all[b].total] else s.sent)
  }

  function OutcomeFor(bucket: Bucket, result: int): Outcome {
    if bucket.total <= 0 then Expired else Sent(bucket.total, result)
  }

  function Ids(ws: seq<Waiter>): set<nat> { set w | w in ws :: w.id }

  function Told(ids: set<nat>, out: Outcome): map<nat, Outcome> { map i | i in ids :: out }

  /** Every waiter of the snapshot receives the one outcome of its bucket. */
  function AfterAnswer(s: State, b: nat, result: int): State {
    if b >= |s.all| || !s.all[b].snapped || s.all[b].answered then s
    else
      s.(all := s.all[b := s.all[b].(answered := true)],
         outcomes := s.outcomes + Told(Ids(s.all[b].waiters), OutcomeFor(s.all[b], result)))
  }

  /** The handlers in front refuse quantities outside the limit. */
  function Next(s: State, step: Step): State {
    match step
    case Submit(k, idem, qty) => if 1 <= qty <= MAX_ECONOMY_QUANTITY then AfterSubmit(s, k, idem, qty) else s
    case TimerFires(b) => AfterTimer(s, b)
    case Flush(b) => AfterFlush(s, b)
    case Answer(b, result) => AfterAnswer(s, b, result)
  }

  function Run(steps: seq<Step>): State {
    if steps == [] then Start() else Next(Run(steps[..|steps| - 1]), steps[|steps| - 1])
  }

  // ---- What a bucket is worth ----

  function Keys(ws: seq<Waiter>): set<string> { set w | w in ws :: w.idem }

  /** The sum over the distinct idempotency keys of the quantity each was first submitted with. */
  function FirstQuantities(ws: seq<Waiter>): int {
    if ws == [] then 0
    else
      var front, w := ws[..|ws| - 1], ws[|ws| - 1];
      FirstQuantities(front) + if w.idem in Keys(front) then 0 else w.qty
  }

  lemma FirstQuantitiesPush(ws: seq<Waiter>, w: Waiter)
    ensures FirstQuantities(ws + [w]) == FirstQuantities(ws) + (if w.idem in Keys(ws) then 0 else w.qty)
    ensures Keys(ws + [w]) == Keys(ws) + {w.idem} && Ids(ws + [w]) == Ids(ws) + {w.id}
  {
    assert (ws + [w])[..|ws|] == ws;
    assert forall x :: x in ws + [w] <==> x in ws || x == w;
  }

  // ---- The invariant ----

  predicate IsOpen(s: State, b: nat) { b < |s.all| && s.all[b].key in s.open && s.open[s.all[b].key] == b }

  /** The running total is what the waiters are worth. */
  ghost predicate Worth(bucket: Bucket) {
    && bucket.waiters != []
    && bucket.total == FirstQuantities(bucket.waiters) && 1 <= bucket.total <= MAX_ECONOMY_QUANTITY
  }

  ghost predicate SeenExact(bucket: Bucket) {
    bucket.seen.Keys == Keys(bucket.waiters) && forall i :: i in bucket.seen ==> bucket.seen[i] > 0
  }

  predicate DistinctIds(ws: seq<Waiter>) { forall i, j :: 0 <= i < j < |ws| ==> ws[i].id != ws[j].id }

  predicate WaitersSound(s: State, bucket: Bucket) {
    forall i :: 0 <= i < |bucket.waiters| ==> WaiterSound(s, bucket, bucket.waiters[i].id)
  }

  ghost predicate BucketSound(s: State, b: nat)
    requires b < |s.all|
  {
    var bucket := s.all[b];
    && Worth(bucket) && DistinctIds(bucket.waiters) && WaitersSound(s, bucket)
    && (IsOpen(s, b) ==> SeenExact(bucket) && !bucket.snapped)
    && (bucket.snapped ==> bucket.fired)
    && (b in s.sent <==> bucket.snapped) && (b in s.sent ==> s.sent[b] == bucket.total)
    && (bucket.answered ==> bucket.snapped)
  }

  predicate WaiterSound(s: State, bucket: Bucket, id: nat) {
    && id < s.nextWaiter
    && (id in s.outcomes <==> bucket.answered)
    && (id in s.outcomes ==> s.outcomes[id].Sent? && s.outcomes[id].qty == bucket.total)
  }

  /** Waiter id waits in bucket b. */
  predicate WaitsIn(s: State, id: nat, b: nat) { b < |s.all| && id in Ids(s.all[b].waiters) }

  ghost predicate OneBucketEach(s: State) {
    && (forall id: nat :: id < s.nextWaiter ==> id in s.home)
    && (forall id :: id in s.home ==> id < s.nextWaiter && WaitsIn(s, id, s.home[id]))
    && (forall id, b :: WaitsIn(s, id, b) ==> id in s.home && s.home[id] == b)
  }

  ghost predicate Sound(s: State) {
    && (forall k :: k in s.open ==> s.open[k] < |s.all| && s.all[s.open[k]].key == k)
    && (forall b :: 0 <= b < |s.all| ==> BucketSound(s, b))
    && (forall b :: b in s.sent ==> b < |s.all|)
    && (forall id :: id in s.outcomes ==> id < s.nextWaiter)
    && OneBucketEach(s)
  }

  // ---- Steps keep the invariant ----

  lemma BucketStays(s: State, v: State, b: nat)
    requires b < |s.all| && b < |v.all| && BucketSound(s, b) && v.all[b] == s.all[b]
    requires IsOpen(v, b) ==> IsOpen(s, b)
    requires (b in v.sent <==> b in s.sent) && (b in s.sent ==> v.sent[b] == s.sent[b])
    requires s.nextWaiter <= v.nextWaiter
    requires forall id :: id in Ids(s.all[b].waiters) ==> (id in v.outcomes <==> id in s.outcomes) && (id in s.outcomes ==> v.outcomes[id] == s.outcomes[id])
    ensures BucketSound(v, b)
  {
    forall i | 0 <= i < |v.all[b].waiters| ensures WaiterSound(v, v.all[b], v.all[b].waiters[i].id) {
      assert v.all[b].waiters[i].id in Ids(s.all[b].waiters);
      assert WaiterSound(s, s.all[b], s.all[b].waiters[i].id);
    }
  }

  lemma JoinedIsWorth(bucket: Bucket, joined: Bucket, w: Waiter)
    requires Worth(bucket) && SeenExact(bucket) && 1 <= w.qty
    requires var isNew := w.idem !in bucket.seen;
      && (isNew ==> bucket.total + w.qty <= MAX_ECONOMY_QUANTITY)
      && joined == bucket.(waiters := bucket.waiters + [w],
           seen := if isNew then bucket.seen[w.idem := w.qty] else bucket.seen,
           total := bucket.total + if isNew then w.qty else 0)
    ensures Worth(joined) && SeenExact(joined)
  {
    FirstQuantitiesPush(bucket.waiters, w);
  }

  lemma NewIsWorth(bucket: Bucket, w: Waiter)
    requires bucket.waiters == [w] && bucket.seen == map[w.idem := w.qty] && bucket.total == w.qty && 1 <= w.qty <= MAX_ECONOMY_QUANTITY
    ensures Worth(bucket) && SeenExact(bucket) && Ids(bucket.waiters) == {w.id}
  {
    FirstQuantitiesPush([], w);
    assert [] + [w] == [w];
  }

  lemma JoinedWaitersSound(s: State, v: State, bucket: Bucket, joined: Bucket, w: Waiter)
    requires DistinctIds(bucket.waiters) && WaitersSound(s, bucket) && !bucket.answered && !joined.answered
    requires joined.waiters == bucket.waiters + [w] && w.id == s.nextWaiter < v.nextWaiter
    requires v.outcomes == s.outcomes && w.id !in s.outcomes
    ensures DistinctIds(joined.waiters) && WaitersSound(v, joined)
  {
    forall i | 0 <= i < |bucket.waiters| ensures WaiterSound(v, joined, bucket.waiters[i].id) && bucket.waiters[i].id != w.id {
      assert WaiterSound(s, bucket, bucket.waiters[i].id);
    }
  }

  /** The new waiter goes to bucket b, everyone else stays where they were. */
  lemma HomesStay(s: State, v: State, b: nat, w: Waiter)
    requires OneBucketEach(s) && w.id == s.nextWaiter && v.nextWaiter == s.nextWaiter + 1 && v.home == s.home[w.id := b]
    requires |s.all| <= |v.all| && b < |v.all|
    requires forall c {:trigger v.all[c]} :: 0 <= c < |v.all| ==>
               Ids(v.all[c].waiters) == (if c < |s.all| then Ids(s.all[c].waiters) else {}) + (if c == b then {w.id} else {})
    ensures OneBucketEach(v)
  {
    forall id: nat, c: nat | WaitsIn(v, id, c) ensures id in v.home && v.home[id] == c {
      if !(c == b && id == w.id) { assert WaitsIn(s, id, c); }
    }
    forall id | id in v.home ensures id < v.nextWaiter && WaitsIn(v, id, v.home[id]) {
      if id in s.home && id != w.id { assert WaitsIn(s, id, s.home[id]); }
    }
  }

  lemma OneBucketEachAfterJoin(s: State, v: State, b: nat, w: Waiter)
    requires OneBucketEach(s) && b < |s.all| && w.id == s.nextWaiter
    requires v.nextWaiter == s.nextWaiter + 1 && v.home == s.home[w.id := b]
    requires |v.all| == |s.all| && v.all == s.all[b := v.all[b]] && v.all[b].waiters == s.all[b].waiters + [w]
    ensures OneBucketEach(v)
  {
    FirstQuantitiesPush(s.all[b].waiters, w);
    HomesStay(s, v, b, w);
  }

  /** One more waiter joins bucket b; its quantity counts if its key is new there. */
  ghost predicate Joined(s: State, v: State, b: nat, w: Waiter)
    requires b < |s.all|
  {
    var bucket := s.all[b]; var isNew := w.idem !in bucket.seen;
    && (isNew ==> bucket.total + w.qty <= MAX_ECONOMY_QUANTITY)
    && v == s.(all := s.all[b := bucket.(waiters := bucket.waiters + [w],
                 seen := if isNew then bucket.seen[w.idem := w.qty] else bucket.seen,
                 total := bucket.total + if isNew then w.qty else 0)],
               nextWaiter := s.nextWaiter + 1, home := s.home[w.id := b])
  }

  lemma JoinedBucketIsSound(s: State, v: State, b: nat, w: Waiter)
    requires IsOpen(s, b) && BucketSound(s, b) && w.id == s.nextWaiter && w.id !in s.outcomes && 1 <= w.qty && Joined(s, v, b, w)
    ensures BucketSound(v, b)
  {
    JoinedIsWorth(s.all[b], v.all[b], w);
    JoinedWaitersSound(s, v, s.all[b], v.all[b], w);
  }

  lemma JoinKeepsSound(s: State, v: State, b: nat, w: Waiter)
    requires Sound(s) && IsOpen(s, b) && w.id == s.nextWaiter && 1 <= w.qty && Joined(s, v, b, w)
    ensures Sound(v)
  {
    assert BucketSound(s, b);
    JoinedBucketIsSound(s, v, b, w);
    OneBucketEachAfterJoin(s, v, b, w);
    OthersStaySound(s, v, b);
  }

  lemma OthersStaySound(s: State, v: State, b: nat)
    requires b < |s.all| == |v.all| && v.all == s.all[b := v.all[b]]
    requires v.open == s.open && v.sent == s.sent && v.outcomes == s.outcomes && s.nextWaiter <= v.nextWaiter
    requires v.all[b].key == s.all[b].key && forall c :: 0 <= c < |s.all| ==> BucketSound(s, c)
    ensures forall c :: 0 <= c < |v.all| && c != b ==> BucketSound(v, c)
  {
    forall c | 0 <= c < |v.all| && c != b ensures BucketSound(v, c) {
      assert BucketSound(s, c);
      BucketStays(s, v, c);
    }
  }

  /** A bucket opened by its first waiter, whatever bucket of that key was open before. */
  lemma OpenKeepsSound(s: State, v: State, k: BucketKey, w: Waiter)
    requires Sound(s) && w.id == s.nextWaiter && 1 <= w.qty <= MAX_ECONOMY_QUANTITY
    requires v == s.(open := s.open[k := |s.all|],
                     all := s.all + [Bucket(k, [w], map[w.idem := w.qty], w.qty, false, false, false)],
                     nextWaiter := s.nextWaiter + 1, home := s.home[w.id := |s.all|])
    ensures Sound(v)
  {
    var b := |s.all|;
    NewIsWorth(v.all[b], w);
    HomesStay(s, v, b, w);
    forall c | 0 <= c < |v.all| ensures BucketSound(v, c) {
      if c < |s.all| {
        assert BucketSound(s, c);
        BucketStays(s, v, c);
      }
    }
  }

  /** Firing, and marking a key that goes elsewhere, leave everything a closed bucket promises. */
  lemma OverflowKeepsSound(s: State, k: BucketKey, w: Waiter)
    requires Sound(s) && k in s.open && w.id == s.nextWaiter && 1 <= w.qty <= MAX_ECONOMY_QUANTITY
    requires var bucket := s.all[s.open[k]]; w.idem !in bucket.seen && bucket.total + w.qty > MAX_ECONOMY_QUANTITY
    ensures Sound(AfterSubmit(s, k, w.idem, w.qty))
  {
    var b := s.open[k];
    var bucket := s.all[b];
    var v := AfterSubmit(s, k, w.idem, w.qty);
    var closed := bucket.(seen := bucket.seen[w.idem := w.qty], fired := true);
    var second := Bucket(k, [w], map[w.idem := w.qty], w.qty, false, false, false);
    assert v.all == s.all[b := closed] + [second];
    ClosedKeepsSound(s, v, b, closed, second, w);
  }

  lemma ClosedKeepsSound(s: State, v: State, b: nat, closed: Bucket, second: Bucket, w: Waiter)
    requires Sound(s) && IsOpen(s, b) && w.id == s.nextWaiter && 1 <= w.qty <= MAX_ECONOMY_QUANTITY
    requires closed == s.all[b].(seen := closed.seen, fired := true)
    requires second == Bucket(s.all[b].key, [w], map[w.idem := w.qty], w.qty, false, false, false)
    requires v == s.(open := s.open[second.key := |s.all|], all := s.all[b := closed] + [second],
                     nextWaiter := s.nextWaiter + 1, home := s.home[w.id := |s.all|])
    ensures Sound(v)
  {
    NewIsWorth(second, w);
    HomesStay(s, v, |s.all|, w);
    forall c | 0 <= c < |v.all| ensures BucketSound(v, c) {
      if c < |s.all| {
        assert BucketSound(s, c);
        if c != b {
          BucketStays(s, v, c);
        } else {
          forall i | 0 <= i < |closed.waiters| ensures WaiterSound(v, closed, closed.waiters[i].id) {
            assert WaiterSound(s, s.all[b], s.all[b].waiters[i].id);
          }
        }
      }
    }
  }

  lemma OpeningKeepsSound(s: State, k: BucketKey, idem: string, qty: int)
    requires Sound(s) && 1 <= qty <= MAX_ECONOMY_QUANTITY && k !in s.open
    ensures Sound(AfterSubmit(s, k, idem, qty))
  {
    var v := AfterSubmit(s, k, idem, qty);
    var w := Waiter(s.nextWaiter, idem, qty);
    assert [] + [w] == [w] && (map[][idem := qty]) == map[idem := qty];
    assert v.all == s.all + [Bucket(k, [w], map[idem := qty], qty, false, false, false)];
    OpenKeepsSound(s, v, k, w);
  }

  lemma JoiningKeepsSound(s: State, k: BucketKey, idem: string, qty: int)
    requires Sound(s) && 1 <= qty <= MAX_ECONOMY_QUANTITY && k in s.open
    requires idem in s.all[s.open[k]].seen || s.all[s.open[k]].total + qty <= MAX_ECONOMY_QUANTITY
    ensures Sound(AfterSubmit(s, k, idem, qty))
  {
    assert BucketSound(s, s.open[k]);
    JoinKeepsSound(s, AfterSubmit(s, k, idem, qty), s.open[k], Waiter(s.nextWaiter, idem, qty));
  }

  lemma SubmitKeepsSound(s: State, k: BucketKey, idem: string, qty: int)
    requires Sound(s) && 1 <= qty <= MAX_ECONOMY_QUANTITY
    ensures Sound(AfterSubmit(s, k, idem, qty))
  {
    if k !in s.open {
      OpeningKeepsSound(s, k, idem, qty);
    } else if idem in s.all[s.open[k]].seen || s.all[s.open[k]].total + qty <= MAX_ECONOMY_QUANTITY {
      JoiningKeepsSound(s, k, idem, qty);
    } else {
      OverflowKeepsSound(s, k, Waiter(s.nextWaiter, idem, qty));
    }
  }

  lemma TimerKeepsSound(s: State, b: nat)
    requires Sound(s)
    ensures Sound(AfterTimer(s, b))
  {
    var v := AfterTimer(s, b);
    if b < |s.all| {
      SameWaitersKeepSound(s, v, b);
    }
  }

  /** Changes to the flags of one bucket. */
  lemma SameWaitersKeepSound(s: State, v: State, b: nat)
    requires Sound(s) && b < |s.all| && v.nextWaiter == s.nextWaiter && v.home == s.home
    requires |v.all| == |s.all| && v.all == s.all[b := v.all[b]] && v.all[b].waiters == s.all[b].waiters && v.all[b].key == s.all[b].key
    requires v.open == s.open || (IsOpen(s, b) && v.open == s.open - {s.all[b].key})
    requires forall c :: c != b ==> (c in v.sent <==> c in s.sent) && (c in s.sent ==> v.sent[c] == s.sent[c])
    requires b in s.sent ==> b in v.sent
    requires forall id :: id in v.outcomes && id !in s.outcomes ==> id in Ids(s.all[b].waiters)
    requires forall id :: id in s.outcomes ==> id in v.outcomes && (id !in Ids(s.all[b].waiters) ==> v.outcomes[id] == s.outcomes[id])
    requires BucketSound(s, b) ==> BucketSound(v, b)
    ensures Sound(v)
  {
    assert BucketSound(s, b);
    forall c | 0 <= c < |v.all| ensures BucketSound(v, c) {
      assert BucketSound(s, c);
      if c != b {
        forall id | id in Ids(s.all[c].waiters) ensures id !in Ids(s.all[b].waiters) {
          assert WaitsIn(s, id, c);
          assert WaitsIn(s, id, b) ==> b == c;
        }
        BucketStays(s, v, c);
      }
    }
    forall id: nat, c: nat | WaitsIn(v, id, c) ensures id in v.home && v.home[id] == c { assert WaitsIn(s, id, c); }
    forall id | id in v.home ensures id < v.nextWaiter && WaitsIn(v, id, v.home[id]) { assert WaitsIn(s, id, s.home[id]); }
    forall id | id in v.outcomes ensures id < v.nextWaiter {
      if id in Ids(s.all[b].waiters) { assert WaitsIn(s, id, b); }
    }
  }

  lemma FlushKeepsSound(s: State, b: nat)
    requires Sound(s)
    ensures Sound(AfterFlush(s, b))
  {
    var v := AfterFlush(s, b);
    if b < |s.all| && s.all[b].fired && !s.all[b].snapped {
      assert BucketSound(s, b);
      forall i | 0 <= i < |v.all[b].waiters| ensures WaiterSound(v, v.all[b], v.all[b].waiters[i].id) {
        assert WaiterSound(s, s.all[b], s.all[b].waiters[i].id);
      }
      SameWaitersKeepSound(s, v, b);
    }
  }

  lemma AnswerKeepsSound(s: State, b: nat, result: int)
    requires Sound(s)
    ensures Sound(AfterAnswer(s, b, result))
  {
    var v := AfterAnswer(s, b, result);
    if b < |s.all| && s.all[b].snapped && !s.all[b].answered {
      assert BucketSound(s, b);
      forall i | 0 <= i < |v.all[b].waiters| ensures WaiterSound(v, v.all[b], v.all[b].waiters[i].id) {
        assert WaiterSound(s, s.all[b], s.all[b].waiters[i].id);
        assert v.all[b].waiters[i].id in Ids(s.all[b].waiters);
      }
      SameWaitersKeepSound(s, v, b);
    }
  }

  lemma {:induction false} RunIsSound(steps: seq<Step>)
    ensures Sound(Run(steps))
  {
    if steps != [] {
      RunIsSound(steps[..|steps| - 1]);
      var s := Run(steps[..|steps| - 1]);
      match steps[|steps| - 1]
      case Submit(k, idem, qty) => if 1 <= qty <= MAX_ECONOMY_QUANTITY { SubmitKeepsSound(s, k, idem, qty); }
      case TimerFires(b) => TimerKeepsSound(s, b);
      case Flush(b) => FlushKeepsSound(s, b);
      case Answer(b, result) => AnswerKeepsSound(s, b, result);
    }
  }

  // ---- The theorems ----

  /**
   * However submissions, timers, overflows and flushes interleave: a bucket sends one command, and it
   * carries the sum of the first quantities of the distinct keys in that bucket, within the limit.
   */
  lemma CommandCarriesFirstQuantities(steps: seq<Step>, b: nat)
    requires b in Run(steps).sent
    ensures var s := Run(steps);
      && b < |s.all| && s.sent[b] == FirstQuantities(s.all[b].waiters)
      && 1 <= s.sent[b] <= MAX_ECONOMY_QUANTITY
  {
    RunIsSound(steps);
    assert BucketSound(Run(steps), b);
  }

  /**
   * Every waiter is in exactly one bucket, hears from it exactly when that bucket is answered, and then
   * hears about the very command the bucket sent; nobody is ever told the zero-quantity error.
   */
  lemma EveryWaiterHearsItsBucket(steps: seq<Step>, id: nat)
    requires id < Run(steps).nextWaiter
    ensures var s := Run(steps);
      && id in s.home && WaitsIn(s, id, s.home[id])
      && (forall b :: WaitsIn(s, id, b) ==> b == s.home[id])
      && (id in s.outcomes <==> s.all[s.home[id]].answered)
      && (id in s.outcomes ==> s.outcomes[id].Sent? && s.home[id] in s.sent && s.outcomes[id].qty == s.sent[s.home[id]])
  {
    RunIsSound(steps);
    var s := Run(steps);
    var b := s.home[id];
    assert WaitsIn(s, id, b) && BucketSound(s, b);
    var w :| w in s.all[b].waiters && w.id == id;
    var i :| 0 <= i < |s.all[b].waiters| && s.all[b].waiters[i] == w;
    assert WaiterSound(s, s.all[b], s.all[b].waiters[i].id);
  }

  /** Nothing joins a bucket after its flush took the snapshot, and a flush never finds a bucket empty. */
  lemma SnapshotIsFinal(steps: seq<Step>, step: Step, b: nat)
    requires b < |Run(steps).all| && Run(steps).all[b].snapped
    ensures var s := Run(steps); var v := Next(s, step);
      && b < |v.all| && v.all[b].waiters == s.all[b].waiters && v.all[b].total == s.all[b].total && v.all[b].snapped
      && s.all[b].waiters != []
  {
    RunIsSound(steps);
    assert BucketSound(Run(steps), b);
    SnappedStays(Run(steps), step, b);
  }

  lemma SnappedStays(s: State, step: Step, b: nat)
    requires Sound(s) && b < |s.all| && s.all[b].snapped
    ensures var v := Next(s, step);
      b < |v.all| && v.all[b].waiters == s.all[b].waiters && v.all[b].total == s.all[b].total && v.all[b].snapped
  {
    assert BucketSound(s, b);
    if step.Submit? && step.key in s.open {
      assert s.open[step.key] != b;
    }
  }

  /** The step that answered a waiter's bucket. */
  predicate AnswersBucket(s: State, step: Step, b: nat) {
    step.Answer? && step.bucket == b && b < |s.all| && s.all[b].snapped && !s.all[b].answered
  }

  /** A waiter hears the quantity its bucket sent with the result of the one step that answered the bucket. */
  lemma {:induction false} WaitersHearTheResult(steps: seq<Step>, id: nat) returns (k: nat)
    requires id in Run(steps).outcomes
    ensures k < |steps| && steps[k].Answer?
    ensures var s := Run(steps);
      && id in s.home && s.home[id] in s.sent && AnswersBucket(Run(steps[..k]), steps[k], s.home[id])
      && s.outcomes[id] == Sent(s.sent[s.home[id]], steps[k].result)
  {
    var front, step := steps[..|steps| - 1], steps[|steps| - 1];
    RunIsSound(steps);
    RunIsSound(front);
    EveryWaiterHearsItsBucket(steps, id);
    if id in Run(front).outcomes {
      k := WaitersHearTheResult(front, id);
      assert steps[..k] == front[..k];
      HeardStays(Run(front), step, id);
    } else {
      k := |steps| - 1;
      NewlyHeard(Run(front), step, id);
    }
  }

  lemma HeardStays(s: State, step: Step, id: nat)
    requires Sound(s) && id in s.outcomes
    ensures var v := Next(s, step);
      && id in s.home && id in v.home && v.home[id] == s.home[id] && id in v.outcomes && v.outcomes[id] == s.outcomes[id]
      && s.home[id] in s.sent && s.home[id] in v.sent && v.sent[s.home[id]] == s.sent[s.home[id]]
  {
    assert id < s.nextWaiter;
    var b := s.home[id];
    assert WaitsIn(s, id, b) && BucketSound(s, b);
    var i := IndexOf(s.all[b].waiters, id);
    assert WaiterSound(s, s.all[b], s.all[b].waiters[i].id);
    if step.Answer? && step.bucket < |s.all| && step.bucket != b && id in Ids(s.all[step.bucket].waiters) {
      assert WaitsIn(s, id, step.bucket);
    }
  }

  lemma NewlyHeard(s: State, step: Step, id: nat)
    requires Sound(s) && id !in s.outcomes && id in Next(s, step).outcomes
    ensures step.Answer? && id in s.home && AnswersBucket(s, step, s.home[id])
    ensures var v := Next(s, step); id in v.home && v.home[id] == s.home[id] && v.outcomes[id] == Sent(s.all[s.home[id]].total, step.result)
    ensures s.home[id] in s.sent && s.sent[s.home[id]] == s.all[s.home[id]].total && Next(s, step).sent == s.sent
  {
    assert step.Answer? && id in Ids(s.all[step.bucket].waiters);
    assert WaitsIn(s, id, step.bucket);
    assert BucketSound(s, step.bucket);
  }

  lemma IndexOf(ws: seq<Waiter>, id: nat) returns (i: nat)
    requires id in Ids(ws)
    ensures i < |ws| && ws[i].id == id
  {
    var w :| w in ws && w.id == id;
    i :| 0 <= i < |ws| && ws[i] == w;
  }

  // ---- Each step, in terms of the buckets ----

  /** The key was not counted in this bucket yet. */
  predicate FirstOf(bucket: Bucket, idem: string) { idem !in bucket.seen || bucket.seen[idem] == 0 }

  predicate Overflows(s: State, k: BucketKey, idem: string, qty: int) {
    && k in s.open && s.open[k] < |s.all|
    && FirstOf(s.all[s.open[k]], idem) && s.all[s.open[k]].total + qty > 10_000
  }

  /** The waiter is bucket b's from now on, and b is the open one of its key; nothing was sent or answered. */
  ghost predicate WaitsFromNow(s: State, v: State, k: BucketKey, b: nat) {
    && v.nextWaiter == s.nextWaiter + 1 && v.home == s.home[s.nextWaiter := b] && v.open == s.open[k := b]
    && v.outcomes == s.outcomes && v.sent == s.sent
  }

  /** A submission joins the open bucket of its own user, kind and crop, and adds its quantity the first time its key comes. */
  lemma JoinsExactly(s: State, k: BucketKey, idem: string, qty: int)
    requires Sound(s) && 1 <= qty <= 10_000 && k in s.open && !Overflows(s, k, idem, qty)
    ensures var v := AfterSubmit(s, k, idem, qty); var b := s.open[k]; var was := s.all[s.open[k]];
      && WaitsFromNow(s, v, k, b) && was.key == k
      && v.all == s.all[b := was.(waiters := was.waiters + [Waiter(s.nextWaiter, idem, qty)],
                                  total := if FirstOf(was, idem) then was.total + qty else was.total,
                                  seen := if FirstOf(was, idem) then was.seen[idem := qty] else was.seen)]
  {
  }

  /** Without an open bucket a submission opens one for its key. */
  lemma OpensExactly(s: State, k: BucketKey, idem: string, qty: int)
    requires Sound(s) && 1 <= qty <= 10_000 && k !in s.open
    ensures var v := AfterSubmit(s, k, idem, qty); var w := Waiter(s.nextWaiter, idem, qty);
      && WaitsFromNow(s, v, k, |s.all|)
      && v.all == s.all + [Bucket(k, [w], map[idem := qty], qty, false, false, false)]
  {
    assert [] + [Waiter(s.nextWaiter, idem, qty)] == [Waiter(s.nextWaiter, idem, qty)];
    assert map[][idem := qty] == map[idem := qty];
  }

  /** A sum that would pass ten thousand makes the open bucket due at once, and opens another. */
  lemma OverflowsExactly(s: State, k: BucketKey, idem: string, qty: int)
    requires Sound(s) && 1 <= qty <= 10_000 && Overflows(s, k, idem, qty)
    ensures var v := AfterSubmit(s, k, idem, qty); var w := Waiter(s.nextWaiter, idem, qty);
      var b, was := s.open[k], s.all[s.open[k]];
      && WaitsFromNow(s, v, k, |s.all|)
      && v.all == s.all[b := was.(fired := true, seen := was.seen[idem := qty])]
                  + [Bucket(k, [w], map[idem := qty], qty, false, false, false)]
  {
  }

  /** Only quantities from one to ten thousand get in. */
  lemma QuantitiesExactly(s: State, k: BucketKey, idem: string, qty: int)
    ensures Next(s, Submit(k, idem, qty)) == if 1 <= qty && qty <= 10_000 then AfterSubmit(s, k, idem, qty) else s
  {
  }

  /** A timer makes its bucket due; a flush of a due bucket closes it and sends what it is worth; an answer reaches its waiters. */
  lemma OtherStepsExactly(s: State, b: nat, result: int)
    requires Sound(s) && b < |s.all|
    ensures Next(s, TimerFires(b)) == s.(all := s.all[b := s.all[b].(fired := true)])
    ensures s.all[b].fired && !s.all[b].snapped ==>
      Next(s, Flush(b)) == s.(all := s.all[b := s.all[b].(snapped := true)], sent := s.sent[b := s.all[b].total],
                              open := if s.all[b].key in s.open && s.open[s.all[b].key] == b then s.open - {s.all[b].key} else s.open)
    ensures !s.all[b].fired || s.all[b].snapped ==> Next(s, Flush(b)) == s
    ensures s.all[b].snapped && !s.all[b].answered ==>
      var v := Next(s, Answer(b, result));
      && v == s.(all := s.all[b := s.all[b].(answered := true)], outcomes := v.outcomes)
      && forall id :: id in v.outcomes <==> id in s.outcomes || id in Ids(s.all[b].waiters)
    ensures !s.all[b].snapped || s.all[b].answered ==> Next(s, Answer(b, result)) == s
  {
    assert BucketSound(s, b);
  }

  // ---- The coalescer in its own form ----

  class EconomyCoalescer {
    var open: map<BucketKey, nat>
    var all: seq<Bucket>
    var nextWaiter: nat
    var outcomes: map<nat, Outcome>
    ghost var sent: map<nat, int>
    ghost var home: map<nat, nat>

    ghost function Content(): State
      reads this
    {
      State(open, all, nextWaiter, outcomes, sent, home)
    }

    constructor ()
      ensures Content() == Start()
    {
      open, all, nextWaiter, outcomes := map[], [], 0, map[];
      sent, home := map[], map[];
    }

    method NewBucket(k: BucketKey) returns (b: nat)
      modifies this
      ensures Content() == WithNewBucket(old(Content()), k) && b == |old(all)|
    {
      b := |all|;
      all := all + [Bucket(k, [], map[], 0, false, false, false)];
      open := open[k := b];
    }

    /** The part of Submit under the mutex; the returned waiter then waits on its own channel. */
    method Submit(k: BucketKey, idem: string, qty: int) returns (waiter: nat)
      requires 1 <= qty <= MAX_ECONOMY_QUANTITY
      requires forall j :: j in open ==> open[j] < |all|
      modifies this
      ensures Content() == AfterSubmit(old(Content()), k, idem, qty) && waiter == old(nextWaiter)
    {
      waiter := nextWaiter;
      var w := Waiter(waiter, idem, qty);
      var b;
      if k in open {
        b := open[k];
      } else {
        b := NewBucket(k);
      }
      var prevQty := if idem in all[b].seen then all[b].seen[idem] else 0;
      var isNew := prevQty == 0;
      if isNew {
        all := all[b := all[b].(seen := all[b].seen[idem := qty])];
      }
      var addQty := if isNew then qty else 0;
      if addQty > 0 && all[b].total + addQty > MAX_ECONOMY_QUANTITY {
        all := all[b := all[b].(fired := true)];
        b := NewBucket(k);
        all := all[b := all[b].(seen := all[b].seen[idem := qty])];
        addQty := qty;
        assert map[][idem := qty] == map[idem := qty] && [] + [w] == [w];
      }
      all := all[b := all[b].(total := all[b].total + addQty, waiters := all[b].waiters + [w])];
      nextWaiter := nextWaiter + 1;
      home := home[w.id := b];
    }

    method TimerFires(b: nat)
      requires b < |all|
      modifies this`all
      ensures Content() == AfterTimer(old(Content()), b)
    {
      all := all[b := all[b].(fired := true)];
    }

    /** The part of flush under the mutex; what it returns is what the command will carry. */
    method Flush(b: nat) returns (waiters: seq<Waiter>, totalQty: int)
      requires b < |all| && all[b].fired && !all[b].snapped
      modifies this
      ensures Content() == AfterFlush(old(Content()), b)
      ensures waiters == old(all)[b].waiters && totalQty == old(all)[b].total
    {
      if all[b].key in open && open[all[b].key] == b {
        open := open - {all[b].key};
      }
      waiters, totalQty := all[b].waiters, all[b].total;
      all := all[b := all[b].(snapped := true)];
      if waiters != [] && totalQty > 0 {
        sent := sent[b := totalQty];
      }
    }

    /** Hands the outcome to the waiters of the snapshot one by one. */
    method Answer(b: nat, result: int)
      requires b < |all| && all[b].snapped && !all[b].answered
      modifies this
      ensures Content() == AfterAnswer(old(Content()), b, result)
      ensures forall w :: w in old(all)[b].waiters ==>
        w.id in outcomes && outcomes[w.id] == if old(all)[b].total <= 0 then Expired else Sent(old(all)[b].total, result)
    {
      var out := if all[b].total <= 0 then Expired else Sent(all[b].total, result);
      HandOut(all[b].waiters, out);
      all := all[b := all[b].(answered := true)];
    }

    lemma OneMoreAnswer(base: map<nat, Outcome>, ws: seq<Waiter>, k: nat, out: Outcome)
      requires k < |ws|
      ensures (base + Told(Ids(ws[..k]), out))[ws[k].id := out] == base + Told(Ids(ws[..k + 1]), out)
    {
      assert ws[..k + 1] == ws[..k] + [ws[k]];
      FirstQuantitiesPush(ws[..k], ws[k]);
      var was, after := Ids(ws[..k]), Ids(ws[..k + 1]);
      assert after == was + {ws[k].id};
    }

    method HandOut(waiters: seq<Waiter>, out: Outcome)
      modifies this`outcomes
      ensures outcomes == old(outcomes) + Told(Ids(waiters), out)
    {
      var k := 0;
      while k < |waiters|
        invariant 0 <= k <= |waiters|
        invariant outcomes == old(outcomes) + Told(Ids(waiters[..k]), out)
      {
        OneMoreAnswer(old(outcomes), waiters, k, out);
        outcomes := outcomes[waiters[k].id := out];
        k := k + 1;
      }
      assert waiters[..k] == waiters;
    }
  }
}
