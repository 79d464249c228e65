/** Controllers that converge every bucket to its rendezvous owner, and the resolvers that follow them. */
module RouteControl {
  import opened Prelude
  import opened RouteStore

  type Score = (nat, Id) -> nat

  // ---- Rendezvous ownership ----

  /** x is preferred to y: a higher score, or the smaller identifier on a tie. */
  predicate Beats(score: Score, b: nat, x: Id, y: Id) { score(b, x) > score(b, y) || (score(b, x) == score(b, y) && x < y) }

  predicate IsDesired(score: Score, b: nat, live: set<Id>, owner: Id) {
    owner in live && forall x :: x in live && x != owner ==> Beats(score, b, owner, x)
  }

  function Elements(ids: seq<Id>): set<Id> { set x | x in ids }

  predicate Ascending(ids: seq<Id>) { forall i, j :: 0 <= i < j < |ids| ==> ids[i] < ids[j] }

  /** The running best over the sorted instances is the one live instance that beats all others. */
  method DesiredOwner(b: nat, instances: seq<Id>, score: Score) returns (owner: Option<Id>)
    requires Ascending(instances)
    ensures owner.None? <==> instances == []
    ensures owner.Some? ==> IsDesired(score, b, Elements(instances), owner.value)
  {
    owner := None;
    var best := 0;
    var k := 0;
    while k < |instances|
      invariant 0 <= k <= |instances|
      invariant owner.None? <==> k == 0
      invariant owner.Some? ==> best == score(b, owner.value) && owner.value in instances[..k]
      invariant forall j :: 0 <= j < k && owner.Some? && instances[j] != owner.value ==> Beats(score, b, owner.value, instances[j])
    {
      var s := score(b, instances[k]);
      if owner.None? || s > best {
        owner, best := Some(instances[k]), s;
      }
      k := k + 1;
    }
  }

  lemma DesiredIsUnique(score: Score, b: nat, live: set<Id>, x: Id, y: Id)
    requires IsDesired(score, b, live, x) && IsDesired(score, b, live, y)
    ensures x == y
  {
  }

  /** A new instance moves exactly the buckets it wins; everything else keeps its owner. */
  lemma JoiningMovesOnlyItsWins(score: Score, b: nat, live: set<Id>, joined: Id, owner: Id, owner': Id)
    requires joined !in live && IsDesired(score, b, live, owner) && IsDesired(score, b, live + {joined}, owner')
    ensures owner' == if Beats(score, b, joined, owner) then joined else owner
  {
    assert Beats(score, b, joined, owner) || Beats(score, b, owner, joined);
    if owner' != joined {
      assert owner' in live;
    }
  }

  /** A departing instance moves exactly the buckets it owned. */
  lemma LeavingMovesOnlyItsBuckets(score: Score, b: nat, live: set<Id>, left: Id, owner: Id, owner': Id)
    requires left in live && IsDesired(score, b, live, owner) && IsDesired(score, b, live - {left}, owner')
    ensures owner' == owner <==> owner != left
  {
    assert owner' in live && owner' != left;
    assert owner != left ==> owner in live - {left};
  }

  // ---- One controller's work on one bucket ----

  /** What a reconciliation round of the bucket's desired owner does to it. */
  function BucketRound(s: Store, me: Id, lease: Lease, b: nat): Store {
    var seen := RouteAt(s, b);
    if seen.None? || seen.value.route.owner != me then ClaimTxn(s, me, lease, b, seen, EpochAt(s, b))
    else if !seen.value.route.active then ActivateTxn(s, me, lease, b, seen.value.route.epoch, seen.value)
    else s
  }

  function RouteValue(s: Store, b: nat): Option<Route> { if b in s.routes then Some(s.routes[b].route) else None }

  function EpochValue(s: Store, b: nat): int { if b in s.epochs then s.epochs[b].epoch else 0 }

  /** How far a bucket is from being ACTIVE under d: a claim and an activation, one of them, or nothing. */
  function Distance(s: Store, b: nat, d: Id): nat {
    match RouteValue(s, b)
    case None => 1
    case Some(r) => if r.owner != d then 2 else if !r.active then 1 else 0
  }

  lemma RoundShortensTheDistance(s: Store, me: Id, lease: Lease, b: nat)
    requires StoreSound(s)
    ensures var v := BucketRound(s, me, lease, b);
      && StoreSound(v)
      && Distance(v, b, me) == (if Distance(s, b, me) == 0 then 0 else Distance(s, b, me) - 1)
      && (Distance(s, b, me) == 0 ==> v == s)
      && EpochValue(s, b) <= EpochValue(v, b) <= EpochValue(s, b) + 1
  {
    var v := BucketRound(s, me, lease, b);
    if b !in s.routes {
      assert RouteValue(v, b) == Some(Route(me, EpochValue(s, b) + 1, true));
    } else if s.routes[b].route.owner != me {
      assert RouteValue(v, b) == Some(Route(me, EpochValue(s, b) + 1, false));
    } else {
      assert RouteValue(v, b) == Some(s.routes[b].route.(active := true));
    }
  }

  lemma RoundLeavesOthersAlone(s: Store, me: Id, lease: Lease, b: nat, c: nat)
    requires b != c
    ensures RouteValue(BucketRound(s, me, lease, b), c) == RouteValue(s, c)
    ensures EpochValue(BucketRound(s, me, lease, b), c) == EpochValue(s, c)
  {
  }

  /** A controller comes to a bucket in its loop; only the desired owner acts. */
  datatype Visit = Visit(controller: Id, lease: Lease, bucket: nat)

  ghost function AfterVisits(s: Store, visits: seq<Visit>, score: Score, live: set<Id>): Store {
    if visits == [] then s
    else
      var before := AfterVisits(s, visits[..|visits| - 1], score, live);
      var v := visits[|visits| - 1];
      if IsDesired(score, v.bucket, live, v.controller) then BucketRound(before, v.controller, v.lease, v.bucket) else before
  }

  function CountVisits(visits: seq<Visit>, controller: Id, b: nat): nat {
    if visits == [] then 0
    else
      CountVisits(visits[..|visits| - 1], controller, b)
        + if visits[|visits| - 1].controller == controller && visits[|visits| - 1].bucket == b then 1 else 0
  }

  /**
   * With a fixed live set, however the controllers' loops interleave: each visit by the desired owner
   * brings the bucket one step nearer, and nobody else moves it.
   */
  lemma {:induction false} VisitsConverge(s: Store, visits: seq<Visit>, score: Score, live: set<Id>, b: nat, d: Id)
    requires StoreSound(s) && IsDesired(score, b, live, d)
    ensures var v := AfterVisits(s, visits, score, live);
      && StoreSound(v)
      && Distance(v, b, d) == (if CountVisits(visits, d, b) >= Distance(s, b, d) then 0 else Distance(s, b, d) - CountVisits(visits, d, b))
  {
    if visits != [] {
      var front, last := visits[..|visits| - 1], visits[|visits| - 1];
      VisitsConverge(s, front, score, live, b, d);
      var before := AfterVisits(s, front, score, live);
      if IsDesired(score, last.bucket, live, last.controller) {
        RoundShortensTheDistance(before, last.controller, last.lease, last.bucket);
        if last.bucket == b {
          DesiredIsUnique(score, b, live, d, last.controller);
        } else {
          RoundLeavesOthersAlone(before, last.controller, last.lease, last.bucket, b);
        }
      } else {
        assert !(last.controller == d && last.bucket == b);
      }
    }
  }

  /** Two rounds by every controller leave each bucket ACTIVE under its rendezvous owner. */
  lemma TwoRoundsConverge(s: Store, visits: seq<Visit>, score: Score, live: set<Id>, b: nat, d: Id)
    requires StoreSound(s) && IsDesired(score, b, live, d) && CountVisits(visits, d, b) >= 2
    ensures var v := AfterVisits(s, visits, score, live);
      RouteValue(v, b).Some? && RouteValue(v, b).value.owner == d && RouteValue(v, b).value.active
  {
    VisitsConverge(s, visits, score, live, b, d);
  }

  /** Once every bucket is where it belongs, later rounds change nothing at all. */
  lemma {:induction false} ConvergedStoresRest(s: Store, visits: seq<Visit>, score: Score, live: set<Id>, buckets: nat)
    requires StoreSound(s)
    requires forall k :: 0 <= k < |visits| ==> visits[k].bucket < buckets
    requires forall b, d :: 0 <= b < buckets && IsDesired(score, b, live, d) ==> Distance(s, b, d) == 0
    ensures AfterVisits(s, visits, score, live) == s
  {
    if visits != [] {
      var front, last := visits[..|visits| - 1], visits[|visits| - 1];
      forall k | 0 <= k < |front| ensures front[k].bucket < buckets { assert front[k] == visits[k]; }
      ConvergedStoresRest(s, front, score, live, buckets);
      if IsDesired(score, last.bucket, live, last.controller) {
        RoundShortensTheDistance(s, last.controller, last.lease, last.bucket);
      }
    }
  }

  // ---- The controller ----

  class Etcd {
    var store: Store

    constructor ()
      ensures store == Store(map[], map[], map[], 0)
    {
      store := Store(map[], map[], map[], 0);
    }
  }

  /** What a claim or activation by me makes of a bucket's values. */
  function Reconciled(route: Option<Route>, epoch: int, me: Id): Option<Route> {
    match route
    case None => Some(Route(me, epoch + 1, true))
    case Some(r) => if r.owner == me then Some(r.(active := true)) else Some(Route(me, epoch + 1, false))
  }

  /** A round of the desired owner makes exactly this of its bucket: a free one its own, its own ACTIVE, a foreign one its own and MIGRATING. */
  lemma RoundReconciles(s: Store, me: Id, lease: Lease, b: nat)
    requires StoreSound(s)
    ensures var v := RouteValue(BucketRound(s, me, lease, b), b);
      && v == Reconciled(RouteValue(s, b), EpochValue(s, b), me)
      && (b !in s.routes ==> v == Some(Route(me, EpochValue(s, b) + 1, true)))
      && (b in s.routes && s.routes[b].route.owner == me ==> v == Some(Route(me, s.routes[b].route.epoch, true)))
      && (b in s.routes && s.routes[b].route.owner != me ==> v == Some(Route(me, EpochValue(s, b) + 1, false)))
  {
  }

  class Controller {
    const etcd: Etcd
    const me: Id
    const lease: Lease
    const buckets: nat
    const score: Score

    constructor (etcd: Etcd, me: Id, lease: Lease, buckets: nat, score: Score)
      ensures this.etcd == etcd && this.me == me && this.lease == lease && this.buckets == buckets && this.score == score
    {
      this.etcd, this.me, this.lease, this.buckets, this.score := etcd, me, lease, buckets, score;
    }

    /** Buckets that someone else should own, under the live set of this store. */
    ghost predicate Foreign(s: Store, b: nat) { exists d :: d != me && IsDesired(score, b, s.instances.Keys, d) }

    /** Between two calls to etcd other controllers of the same live set may run: they touch foreign buckets only. */
    ghost predicate OthersOnly(s: Store, v: Store) {
      && v.instances == s.instances && s.revision <= v.revision && StoreSound(v)
      && forall b :: !Foreign(s, b) ==> RouteAt(v, b) == RouteAt(s, b) && EpochAt(v, b) == EpochAt(s, b)
    }

    method OthersMove(live: seq<Id>)
      requires StoreSound(etcd.store) && Ascending(live) && Elements(live) == etcd.store.instances.Keys
      modifies etcd
      ensures OthersOnly(old(etcd.store), etcd.store)
    {
      var n: nat := *;
      while n > 0
        invariant OthersOnly(old(etcd.store), etcd.store)
      {
        var b: nat, theirs: Lease := *, *;
        var d := DesiredOwner(b, live, score);
        if d.Some? && d.value != me {
          assert Foreign(old(etcd.store), b);
          RoundShortensTheDistance(etcd.store, d.value, theirs, b);
          RoundTouchesOneBucket(etcd.store, d.value, theirs, b);
          etcd.store := BucketRound(etcd.store, d.value, theirs, b);
        }
        n := n - 1;
      }
    }

    lemma RoundTouchesOneBucket(s: Store, who: Id, theirs: Lease, b: nat)
      ensures var v := BucketRound(s, who, theirs, b);
        && v.instances == s.instances && s.revision <= v.revision
        && forall c: nat :: c != b ==> RouteAt(v, c) == RouteAt(s, c) && EpochAt(v, c) == EpochAt(s, c)
    {
    }

    /** Lists the registered instances in ascending order. */
    method LiveInstances() returns (live: seq<Id>)
      ensures Ascending(live) && Elements(live) == etcd.store.instances.Keys
    {
      live := [];
      var rest := etcd.store.instances.Keys;
      while rest != {}
        invariant Ascending(live) && rest <= etcd.store.instances.Keys
        invariant Elements(live) == etcd.store.instances.Keys - rest
        invariant forall x, y :: x in live && y in rest ==> x < y
        decreases rest
      {
        var least := Smallest(rest);
        assert forall i :: 0 <= i < |live| ==> live[i] in live;
        assert Elements(live + [least]) == Elements(live) + {least} by {
          assert forall x :: x in live + [least] <==> x in live || x == least;
        }
        live := live + [least];
        rest := rest - {least};
      }
    }

    method Smallest(ids: set<Id>) returns (least: Id)
      requires ids != {}
      ensures least in ids && forall x :: x in ids ==> least <= x
    {
      least := Pick(ids);
      var rest := ids - {least};
      while rest != {}
        invariant rest <= ids && least in ids
        invariant forall x :: x in ids && x !in rest ==> least <= x
        decreases rest
      {
        var x := Pick(rest);
        rest := rest - {x};
        if x < least {
          least := x;
        }
      }
    }

    /** Reads the route, reads the epoch, and swaps both if neither has moved. */
    method Claim(b: nat, live: seq<Id>)
      requires StoreSound(etcd.store) && Ascending(live) && Elements(live) == etcd.store.instances.Keys
      requires IsDesired(score, b, etcd.store.instances.Keys, me)
      modifies etcd
      ensures StoreSound(etcd.store) && etcd.store.instances == old(etcd.store).instances
      ensures !AlreadyMine(RouteAt(old(etcd.store), b), me) ==>
        RouteValue(etcd.store, b) == Some(Route(me, EpochValue(old(etcd.store), b) + 1, RouteValue(old(etcd.store), b).None?))
      ensures !AlreadyMine(RouteAt(old(etcd.store), b), me) ==> EpochValue(etcd.store, b) == EpochValue(old(etcd.store), b) + 1
      ensures AlreadyMine(RouteAt(old(etcd.store), b), me) ==> etcd.store == old(etcd.store)
      ensures !AlreadyMine(RouteAt(old(etcd.store), b), me) ==> b in etcd.store.routes && etcd.store.routes[b].lease == lease
      ensures forall c :: c != b && !Foreign(old(etcd.store), c) ==> RouteAt(etcd.store, c) == RouteAt(old(etcd.store), c) && EpochAt(etcd.store, c) == EpochAt(old(etcd.store), c)
    {
      NotForeign(etcd.store, b);
      var routeSeen := RouteAt(etcd.store, b);
      if AlreadyMine(routeSeen, me) {
        return;
      }
      OthersMove(live);
      var epochSeen := EpochAt(etcd.store, b);
      OthersMove(live);
      ClaimAsRead(etcd.store, b, routeSeen, epochSeen);
      etcd.store := ClaimTxn(etcd.store, me, lease, b, routeSeen, epochSeen);
    }

    lemma ClaimAsRead(s: Store, b: nat, routeSeen: Option<RouteKv>, epochSeen: Option<EpochKv>)
      requires StoreSound(s) && routeSeen == RouteAt(s, b) && epochSeen == EpochAt(s, b)
      ensures var v := ClaimTxn(s, me, lease, b, routeSeen, epochSeen);
        && StoreSound(v) && v.instances == s.instances
        && b in v.routes && v.routes[b].route == Route(me, EpochValue(s, b) + 1, b !in s.routes) && v.routes[b].lease == lease
        && EpochValue(v, b) == EpochValue(s, b) + 1
        && forall c: nat :: c != b ==> RouteAt(v, c) == RouteAt(s, c) && EpochAt(v, c) == EpochAt(s, c)
    {
    }

    lemma NotForeign(s: Store, b: nat)
      requires IsDesired(score, b, s.instances.Keys, me)
      ensures !Foreign(s, b)
    {
      if Foreign(s, b) {
        var d :| d != me && IsDesired(score, b, s.instances.Keys, d);
        DesiredIsUnique(score, b, s.instances.Keys, me, d);
      }
    }

    /** Re-reads the route and, if it is still this claim, turns it ACTIVE. */
    method Activate(b: nat, route: Route, live: seq<Id>)
      requires StoreSound(etcd.store) && Ascending(live) && Elements(live) == etcd.store.instances.Keys
      requires IsDesired(score, b, etcd.store.instances.Keys, me)
      modifies etcd
      ensures StoreSound(etcd.store) && etcd.store.instances == old(etcd.store).instances
      ensures EpochAt(etcd.store, b) == EpochAt(old(etcd.store), b)
      ensures var was := RouteValue(old(etcd.store), b);
        if was.Some? && was.value.owner == me && was.value.epoch == route.epoch
        then RouteValue(etcd.store, b) == Some(was.value.(active := true)) && etcd.store.routes[b].lease == lease
        else etcd.store == old(etcd.store)
      ensures forall c :: c != b && !Foreign(old(etcd.store), c) ==> RouteAt(etcd.store, c) == RouteAt(old(etcd.store), c) && EpochAt(etcd.store, c) == EpochAt(old(etcd.store), c)
    {
      NotForeign(etcd.store, b);
      var seen := RouteAt(etcd.store, b);
      if seen.None? {
        return;
      }
      var current := seen.value;
      if current.route.owner != me || current.route.epoch != route.epoch {
        return;
      }
      OthersMove(live);
      etcd.store := ActivateTxn(etcd.store, me, lease, b, route.epoch, current);
    }

    /**
     * One round over all buckets, on a snapshot of the routes taken at its start: every bucket this
     * controller should own ends exactly one claim or activation further, whatever the others do.
     */
    method ReconcileOnce()
      requires StoreSound(etcd.store)
      modifies etcd
      ensures StoreSound(etcd.store) && etcd.store.instances == old(etcd.store).instances
      ensures forall b :: 0 <= b < buckets && IsDesired(score, b, old(etcd.store).instances.Keys, me) ==>
        RouteValue(etcd.store, b) == Reconciled(RouteValue(old(etcd.store), b), EpochValue(old(etcd.store), b), me)
    {
      ghost var start := etcd.store;
      var live := LiveInstances();
      OthersMove(live);
      var current := etcd.store.routes;
      forall b: nat | IsDesired(score, b, start.instances.Keys, me) ensures RouteAt(etcd.store, b) == RouteAt(start, b) {
        NotForeign(start, b);
      }
      var b := 0;
      while b < buckets
        invariant 0 <= b <= buckets
        invariant StoreSound(etcd.store) && etcd.store.instances == start.instances && Elements(live) == start.instances.Keys
        invariant forall c :: 0 <= c < b && IsDesired(score, c, start.instances.Keys, me) ==>
          RouteValue(etcd.store, c) == Reconciled(RouteValue(start, c), EpochValue(start, c), me)
        invariant forall c :: b <= c < buckets && IsDesired(score, c, start.instances.Keys, me) ==>
          RouteAt(etcd.store, c) == RouteAt(start, c) && EpochAt(etcd.store, c) == EpochAt(start, c)
          && RouteAt(start, c) == (if c in current then Some(current[c]) else None)
      {
        VisitBucket(b, if b in current then Some(current[b].route) else None, live);
        b := b + 1;
      }
    }

    /** The body of the round's loop, for a bucket whose route was as in the snapshot if it is this controller's. */
    method VisitBucket(b: nat, snapshot: Option<Route>, live: seq<Id>)
      requires StoreSound(etcd.store) && Ascending(live) && Elements(live) == etcd.store.instances.Keys
      requires IsDesired(score, b, etcd.store.instances.Keys, me) ==> snapshot == RouteValue(etcd.store, b)
      modifies etcd
      ensures StoreSound(etcd.store) && etcd.store.instances == old(etcd.store).instances
      ensures IsDesired(score, b, old(etcd.store).instances.Keys, me) ==>
        RouteValue(etcd.store, b) == Reconciled(RouteValue(old(etcd.store), b), EpochValue(old(etcd.store), b), me)
      ensures forall c: nat :: c != b && IsDesired(score, c, old(etcd.store).instances.Keys, me) ==>
        RouteAt(etcd.store, c) == RouteAt(old(etcd.store), c) && EpochAt(etcd.store, c) == EpochAt(old(etcd.store), c)
    {
      ghost var before := etcd.store;
      var owner := DesiredOwner(b, live, score);
      if owner != Some(me) {
        if owner.Some? && IsDesired(score, b, before.instances.Keys, me) {
          DesiredIsUnique(score, b, before.instances.Keys, me, owner.value);
        }
        return;
      }
      if snapshot.Some? && snapshot.value.owner == me {
        if !snapshot.value.active {
          Activate(b, snapshot.value, live);
        }
      } else {
        Claim(b, live);
      }
      forall c: nat | c != b && IsDesired(score, c, before.instances.Keys, me)
        ensures RouteAt(etcd.store, c) == RouteAt(before, c) && EpochAt(etcd.store, c) == EpochAt(before, c)
      {
        NotForeign(before, c);
      }
    }
  }

  // ---- The resolver ----

  /** One change of a route key; None is a deletion. */
  datatype Event = Event(revision: nat, bucket: nat, route: Option<Route>)

  /** The route table as the events up to a revision leave it. */
  function TableAt(events: seq<Event>, revision: nat): map<nat, Route> {
    if events == [] then map[]
    else
      var table := TableAt(events[..|events| - 1], revision);
      var e := events[|events| - 1];
      if e.revision > revision then table
      else if e.route.None? then table - {e.bucket}
      else table[e.bucket := e.route.value]
  }

  predicate InRevisionOrder(events: seq<Event>) {
    forall i, j :: 0 <= i < j < |events| ==> events[i].revision <= events[j].revision
  }

  /** Follows the route table by watching: at all times it shows some past revision of it exactly. */
  class Resolver {
    var routes: map<nat, Route>
    var revision: nat

    ghost predicate Shows(events: seq<Event>)
      reads this
    {
      InRevisionOrder(events) && routes == TableAt(events, revision)
    }

    constructor ()
      ensures routes == map[] && revision == 0
    {
      routes, revision := map[], 0;
    }

    /** Reads the whole prefix at the store's revision. */
    method Sync(table: map<nat, Route>, headRevision: nat, ghost events: seq<Event>)
      requires InRevisionOrder(events) && table == TableAt(events, headRevision)
      modifies this
      ensures Shows(events) && revision == headRevision
    {
      routes, revision := table, headRevision;
    }

    /** Applies one watch response: the events after the shown revision up to the response's own. */
    method ApplyResponse(response: seq<Event>, headRevision: nat, ghost events: seq<Event>, ghost from: nat, ghost to: nat)
      requires Shows(events) && revision <= headRevision
      requires from <= to <= |events| && response == events[from..to]
      requires forall i :: 0 <= i < |events| ==> (events[i].revision > revision <==> i >= from) && (events[i].revision > headRevision <==> i >= to)
      modifies this
      ensures Shows(events) && revision == headRevision
    {
      TableIsAPrefix(events, revision, from);
      var k := 0;
      while k < |response|
        invariant 0 <= k <= |response|
        invariant routes == TableAt(events[..from + k], headRevision)
        modifies this`routes
      {
        var e := response[k];
        assert events[..from + k + 1][..from + k] == events[..from + k] && events[from + k] == e;
        if e.route.None? {
          routes := routes - {e.bucket};
        } else {
          routes := routes[e.bucket := e.route.value];
        }
        k := k + 1;
      }
      assert from + k == to;
      TableIsAPrefix(events, headRevision, to);
      revision := headRevision;
    }

    lemma TableIsAPrefix(events: seq<Event>, revision: nat, n: nat)
      requires n <= |events|
      requires forall i :: 0 <= i < |events| ==> (events[i].revision > revision <==> i >= n)
      ensures TableAt(events, revision) == TableAt(events[..n], revision)
      ensures forall later :: later >= revision ==> TableAt(events[..n], later) == TableAt(events[..n], revision)
    {
      BeyondIsIgnored(events, revision, n);
      forall later | later >= revision ensures TableAt(events[..n], later) == TableAt(events[..n], revision) {
        SettledPrefix(events[..n], revision, later);
      }
    }

    lemma {:induction false} BeyondIsIgnored(events: seq<Event>, revision: nat, n: nat)
      requires n <= |events| && forall i :: n <= i < |events| ==> events[i].revision > revision
      ensures TableAt(events, revision) == TableAt(events[..n], revision)
      decreases |events|
    {
      if n == |events| {
        assert events[..n] == events;
      } else {
        assert events[..|events| - 1][..n] == events[..n];
        BeyondIsIgnored(events[..|events| - 1], revision, n);
      }
    }

    lemma {:induction false} SettledPrefix(events: seq<Event>, revision: nat, later: nat)
      requires later >= revision && forall i :: 0 <= i < |events| ==> events[i].revision <= revision
      ensures TableAt(events, later) == TableAt(events, revision)
    {
      if events != [] {
        SettledPrefix(events[..|events| - 1], revision, later);
      }
    }

    /** The route a command of this bucket is stamped with: an ACTIVE one, or an error. */
    method Resolve(b: nat, ghost events: seq<Event>) returns (route: Option<Route>)
      requires Shows(events)
      ensures route.Some? ==> route.value.active && exists i :: 0 <= i < |events| && events[i].bucket == b && events[i].route == route
      ensures route.None? <==> b !in routes || !routes[b].active
      ensures route.Some? ==> route.value == routes[b]
    {
      if b !in routes || !routes[b].active {
        return None;
      }
      ShownWasStored(events, revision, b);
      return Some(routes[b]);
    }

    static lemma {:induction false} ShownWasStored(events: seq<Event>, revision: nat, b: nat)
      requires b in TableAt(events, revision)
      ensures exists i :: 0 <= i < |events| && events[i].bucket == b && events[i].route == Some(TableAt(events, revision)[b])
    {
      var front, e := events[..|events| - 1], events[|events| - 1];
      if e.revision <= revision && e.bucket == b {
        assert events[|events| - 1] == e;
      } else {
        ShownWasStored(front, revision, b);
        var i :| 0 <= i < |front| && front[i].bucket == b && front[i].route == Some(TableAt(front, revision)[b]);
        assert events[i] == front[i];
      }
    }
  }
}
