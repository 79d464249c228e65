/**
 * Route ownership in etcd: claims and activations read first and compare-and-swap later, leases expire
 * in between, and the bucket epochs outlive everything.
 */
module RouteStore {
  import opened Prelude

  /** Instances are told apart and ordered by their identifiers; nothing else about them matters here. */
  type Id = int

  type Lease = nat

  datatype Route = Route(owner: Id, epoch: int, active: bool)

  datatype RouteKv = RouteKv(route: Route, modRevision: nat, lease: Lease)

  datatype EpochKv = EpochKv(epoch: int, modRevision: nat)

  datatype Store = Store(routes: map<nat, RouteKv>, epochs: map<nat, EpochKv>, instances: map<Id, Lease>, revision: nat)

  function RouteAt(s: Store, b: nat): Option<RouteKv> { if b in s.routes then Some(s.routes[b]) else None }

  function EpochAt(s: Store, b: nat): Option<EpochKv> { if b in s.epochs then Some(s.epochs[b]) else None }

  // ---- Transactions ----

  /** The comparison on a route key: still absent, or still at the revision that was read. */
  predicate RouteUnchanged(s: Store, b: nat, seen: Option<RouteKv>) {
    if seen.None? then b !in s.routes else b in s.routes && s.routes[b].modRevision == seen.value.modRevision
  }

  predicate EpochUnchanged(s: Store, b: nat, seen: Option<EpochKv>) {
    if seen.None? then b !in s.epochs else b in s.epochs && s.epochs[b].modRevision == seen.value.modRevision
  }

  predicate AlreadyMine(seen: Option<RouteKv>, me: Id) { seen.Some? && seen.value.route.owner == me && seen.value.route.active }

  function SeenEpoch(seen: Option<EpochKv>): int { if seen.Some? then seen.value.epoch else 0 }

  /** A claim takes the next epoch; over a foreign route it starts MIGRATING, on a free bucket ACTIVE. */
  function ClaimTxn(s: Store, me: Id, lease: Lease, b: nat, routeSeen: Option<RouteKv>, epochSeen: Option<EpochKv>): Store {
    if !RouteUnchanged(s, b, routeSeen) || !EpochUnchanged(s, b, epochSeen) then s
    else
      var epoch := SeenEpoch(epochSeen) + 1;
      s.(epochs := s.epochs[b := EpochKv(epoch, s.revision + 1)],
         routes := s.routes[b := RouteKv(Route(me, epoch, routeSeen.None?), s.revision + 1, lease)],
         revision := s.revision + 1)
  }

  function ActivateTxn(s: Store, me: Id, lease: Lease, b: nat, epoch: int, seen: RouteKv): Store {
    if seen.route.owner != me || seen.route.epoch != epoch || !RouteUnchanged(s, b, Some(seen)) then s
    else
      s.(routes := s.routes[b := RouteKv(seen.route.(active := true), s.revision + 1, lease)], revision := s.revision + 1)
  }

  /** Every key attached to the lease goes in one revision; epoch keys hang on no lease. */
  function Expire(s: Store, lease: Lease): Store {
    s.(routes := map b | b in s.routes && s.routes[b].lease != lease :: s.routes[b],
       instances := map i | i in s.instances && s.instances[i] != lease :: s.instances[i],
       revision := s.revision + 1)
  }

  // ---- Runs ----

  /** What a controller remembers between its reads and its transaction. */
  datatype Attempt =
    | ClaimRead(me: Id, lease: Lease, bucket: nat, routeSeen: Option<RouteKv>)
    | ClaimReady(me: Id, lease: Lease, bucket: nat, routeSeen: Option<RouteKv>, epochSeen: Option<EpochKv>)
    | ActivateReady(me: Id, lease: Lease, bucket: nat, epoch: int, seen: RouteKv)

  datatype Win = Win(bucket: nat, epoch: int, winner: Id)

  datatype World = World(store: Store, attempts: map<nat, Attempt>,
                         /** History: claims that succeeded, in order, and every route value ever stored. */
                         wins: seq<Win>, stored: set<(nat, Route)>)

  datatype Step =
    | Register(me: Id, lease: Lease)
    | ExpireLease(lease: Lease)
    | StartClaim(token: nat, me: Id, lease: Lease, bucket: nat)
    | ReadEpoch(token: nat)
    | CommitClaim(token: nat)
    | StartActivate(token: nat, me: Id, lease: Lease, bucket: nat, epoch: int)
    | CommitActivate(token: nat)

  function Start(): World { World(Store(map[], map[], map[], 0), map[], [], {}) }

  function Next(w: World, step: Step): World {
    var s := w.store;
    match step
    case Register(me, lease) =>
      w.(store := s.(instances := s.instances[me := lease], revision := s.revision + 1))
    case ExpireLease(lease) => w.(store := Expire(s, lease))
    case StartClaim(token, me, lease, b) =>
      if AlreadyMine(RouteAt(s, b), me) then w
      else w.(attempts := w.attempts[token := ClaimRead(me, lease, b, RouteAt(s, b))])
    case ReadEpoch(token) =>
      if token !in w.attempts || !w.attempts[token].ClaimRead? then w
      else
        var a := w.attempts[token];
        w.(attempts := w.attempts[token := ClaimReady(a.me, a.lease, a.bucket, a.routeSeen, EpochAt(s, a.bucket))])
    case CommitClaim(token) =>
      if token !in w.attempts || !w.attempts[token].ClaimReady? then w
      else
        var a := w.attempts[token];
        if !RouteUnchanged(s, a.bucket, a.routeSeen) || !EpochUnchanged(s, a.bucket, a.epochSeen) then w
        else
          var s' := ClaimTxn(s, a.me, a.lease, a.bucket, a.routeSeen, a.epochSeen);
          w.(store := s', wins := w.wins + [Win(a.bucket, SeenEpoch(a.epochSeen) + 1, a.me)],
             stored := w.stored + {(a.bucket, s'.routes[a.bucket].route)})
    case StartActivate(token, me, lease, b, epoch) =>
      if b !in s.routes then w else w.(attempts := w.attempts[token := ActivateReady(me, lease, b, epoch, s.routes[b])])
    case CommitActivate(token) =>
      if token !in w.attempts || !w.attempts[token].ActivateReady? then w
      else
        var a := w.attempts[token];
        var s' := ActivateTxn(s, a.me, a.lease, a.bucket, a.epoch, a.seen);
        w.(store := s', stored := if a.bucket in s'.routes then w.stored + {(a.bucket, s'.routes[a.bucket].route)} else w.stored)
  }

  function Run(steps: seq<Step>): World {
    if steps == [] then Start() else Next(Run(steps[..|steps| - 1]), steps[|steps| - 1])
  }

  // ---- The invariant ----

  /** A remembered key-value pair is the stored one as long as the revision says so. */
  predicate RouteMemory(s: Store, b: nat, kv: RouteKv) {
    kv.modRevision <= s.revision && (b in s.routes && s.routes[b].modRevision == kv.modRevision ==> s.routes[b] == kv)
  }

  predicate EpochMemory(s: Store, b: nat, kv: EpochKv) {
    kv.modRevision <= s.revision && (b in s.epochs && s.epochs[b].modRevision == kv.modRevision ==> s.epochs[b] == kv)
  }

  predicate AttemptSound(s: Store, a: Attempt) {
    match a
    case ClaimRead(_, _, b, routeSeen) => routeSeen.Some? ==> RouteMemory(s, b, routeSeen.value)
    case ClaimReady(_, _, b, routeSeen, epochSeen) =>
      (routeSeen.Some? ==> RouteMemory(s, b, routeSeen.value)) && (epochSeen.Some? ==> EpochMemory(s, b, epochSeen.value))
    case ActivateReady(_, _, b, _, seen) => RouteMemory(s, b, seen)
  }

  ghost predicate StoreSound(s: Store) {
    && (forall b :: b in s.routes ==> s.routes[b].modRevision <= s.revision && b in s.epochs && s.routes[b].route.epoch == s.epochs[b].epoch)
    && (forall b :: b in s.epochs ==> s.epochs[b].modRevision <= s.revision && s.epochs[b].epoch >= 1)
  }

  /** Epochs were won one after the other, and the persistent epoch is the last one won. */
  ghost predicate WinsSound(s: Store, wins: seq<Win>) {
    && (forall i, j :: 0 <= i < j < |wins| && wins[i].bucket == wins[j].bucket ==> wins[i].epoch < wins[j].epoch)
    && (forall i :: 0 <= i < |wins| ==> wins[i].bucket in s.epochs && wins[i].epoch <= s.epochs[wins[i].bucket].epoch)
  }

  ghost predicate StoredSound(w: World) {
    && (forall b, r :: (b, r) in w.stored ==> Win(b, r.epoch, r.owner) in w.wins)
    && (forall b :: b in w.store.routes ==> (b, w.store.routes[b].route) in w.stored)
  }

  ghost predicate Sound(w: World) {
    && StoreSound(w.store) && WinsSound(w.store, w.wins) && StoredSound(w)
    && (forall t :: t in w.attempts ==> AttemptSound(w.store, w.attempts[t]))
  }

  /** A later store in which every key either kept its revision and value or carries a newer revision. */
  ghost predicate Later(s: Store, v: Store) {
    && s.revision <= v.revision
    && (forall b :: b in v.routes ==> (b in s.routes && v.routes[b] == s.routes[b]) || v.routes[b].modRevision > s.revision)
    && (forall b :: b in v.epochs ==> (b in s.epochs && v.epochs[b] == s.epochs[b]) || v.epochs[b].modRevision > s.revision)
    && (forall b :: b in s.epochs ==> b in v.epochs && s.epochs[b].epoch <= v.epochs[b].epoch)
  }

  lemma AttemptsStaySound(s: Store, v: Store, a: Attempt)
    requires AttemptSound(s, a) && Later(s, v)
    ensures AttemptSound(v, a)
  {
  }

  /** A successful compare-and-swap, however old its reads, is a claim made on the present store. */
  lemma CommitIsAnAtomicClaim(s: Store, a: Attempt)
    requires StoreSound(s) && AttemptSound(s, a) && a.ClaimReady?
    requires RouteUnchanged(s, a.bucket, a.routeSeen) && EpochUnchanged(s, a.bucket, a.epochSeen)
    ensures a.routeSeen == RouteAt(s, a.bucket) && a.epochSeen == EpochAt(s, a.bucket)
    ensures ClaimTxn(s, a.me, a.lease, a.bucket, a.routeSeen, a.epochSeen)
         == ClaimTxn(s, a.me, a.lease, a.bucket, RouteAt(s, a.bucket), EpochAt(s, a.bucket))
  {
  }

  /** A sound world whose store is a later one and whose history only grew. */
  ghost predicate Advances(w: World, v: World) {
    Sound(v) && Later(w.store, v.store) && w.wins <= v.wins && w.stored <= v.stored
  }

  /** Remembering what was just read changes nothing that anyone else sees. */
  lemma RememberingIsSound(w: World, v: World, token: nat, a: Attempt)
    requires Sound(w) && AttemptSound(w.store, a) && v == w.(attempts := w.attempts[token := a])
    ensures Advances(w, v)
  {
  }

  /** Instance keys and expired leases: no route or epoch is written, some routes go. */
  lemma LosingRoutesIsSound(w: World, v: World)
    requires Sound(w) && v == w.(store := v.store) && w.store.revision <= v.store.revision && v.store.epochs == w.store.epochs
    requires forall b :: b in v.store.routes ==> b in w.store.routes && v.store.routes[b] == w.store.routes[b]
    ensures Advances(w, v)
  {
    forall t | t in v.attempts ensures AttemptSound(v.store, v.attempts[t]) {
      AttemptsStaySound(w.store, v.store, v.attempts[t]);
    }
  }

  lemma StepKeepsSound(w: World, step: Step)
    requires Sound(w)
    ensures Advances(w, Next(w, step))
  {
    var v := Next(w, step);
    match step
    case Register(_, _) => LosingRoutesIsSound(w, v);
    case ExpireLease(_) => LosingRoutesIsSound(w, v);
    case StartClaim(token, me, lease, b) =>
      if v != w { RememberingIsSound(w, v, token, ClaimRead(me, lease, b, RouteAt(w.store, b))); }
    case ReadEpoch(token) => ReadEpochKeepsSound(w, token);
    case CommitClaim(token) => CommitClaimKeepsSound(w, token);
    case StartActivate(token, me, lease, b, epoch) =>
      if b in w.store.routes { RememberingIsSound(w, v, token, ActivateReady(me, lease, b, epoch, w.store.routes[b])); }
    case CommitActivate(token) => CommitActivateKeepsSound(w, token);
  }

  lemma ReadEpochKeepsSound(w: World, token: nat)
    requires Sound(w)
    ensures Advances(w, Next(w, ReadEpoch(token)))
  {
    if token in w.attempts && w.attempts[token].ClaimRead? {
      var a := w.attempts[token];
      assert AttemptSound(w.store, a);
      RememberingIsSound(w, Next(w, ReadEpoch(token)), token,
                         ClaimReady(a.me, a.lease, a.bucket, a.routeSeen, EpochAt(w.store, a.bucket)));
    }
  }

  /** The claim on the present store: the bucket gets the next epoch, and the route carries it. */
  lemma ClaimIsSound(w: World, v: World, b: nat, me: Id, lease: Lease, active: bool)
    requires Sound(w)
    requires var epoch := SeenEpoch(EpochAt(w.store, b)) + 1;
      v == w.(store := w.store.(epochs := w.store.epochs[b := EpochKv(epoch, w.store.revision + 1)],
                                routes := w.store.routes[b := RouteKv(Route(me, epoch, active), w.store.revision + 1, lease)],
                                revision := w.store.revision + 1),
              wins := w.wins + [Win(b, epoch, me)], stored := w.stored + {(b, Route(me, epoch, active))})
    ensures Advances(w, v)
  {
    forall t | t in v.attempts ensures AttemptSound(v.store, v.attempts[t]) {
      AttemptsStaySound(w.store, v.store, v.attempts[t]);
    }
    ClaimIsWon(w, v, b);
  }

  lemma ClaimIsWon(w: World, v: World, b: nat)
    requires StoredSound(w) && b in v.store.routes && v.store.routes == w.store.routes[b := v.store.routes[b]]
    requires var r := v.store.routes[b].route; v.wins == w.wins + [Win(b, r.epoch, r.owner)] && v.stored == w.stored + {(b, r)}
    ensures StoredSound(v)
  {
    assert v.wins[|w.wins|] in v.wins;
    forall c, r | (c, r) in v.stored ensures Win(c, r.epoch, r.owner) in v.wins {
      if (c, r) in w.stored { assert Win(c, r.epoch, r.owner) in w.wins; }
    }
  }

  lemma CommitClaimKeepsSound(w: World, token: nat)
    requires Sound(w)
    ensures Advances(w, Next(w, CommitClaim(token)))
  {
    var v := Next(w, CommitClaim(token));
    if v != w {
      var a := w.attempts[token];
      CommitIsAnAtomicClaim(w.store, a);
      ClaimIsSound(w, v, a.bucket, a.me, a.lease, a.routeSeen.None?);
    }
  }

  /** A successful activation turns the present route ACTIVE and changes nothing else about it. */
  lemma ActivationKeepsTheRoute(s: Store, a: Attempt)
    requires StoreSound(s) && AttemptSound(s, a) && a.ActivateReady?
    ensures var v := ActivateTxn(s, a.me, a.lease, a.bucket, a.epoch, a.seen);
      && StoreSound(v) && Later(s, v) && v.epochs == s.epochs
      && (v != s ==> a.bucket in s.routes && v.routes == s.routes[a.bucket := v.routes[a.bucket]]
                     && v.routes[a.bucket].route == s.routes[a.bucket].route.(active := true))
  {
  }

  lemma CommitActivateKeepsSound(w: World, token: nat)
    requires Sound(w)
    ensures Advances(w, Next(w, CommitActivate(token)))
  {
    var v := Next(w, CommitActivate(token));
    if token in w.attempts && w.attempts[token].ActivateReady? {
      var a := w.attempts[token];
      ActivationKeepsTheRoute(w.store, a);
      forall t | t in v.attempts ensures AttemptSound(v.store, v.attempts[t]) {
        AttemptsStaySound(w.store, v.store, v.attempts[t]);
      }
      ActivationStaysWon(w, v, a.bucket);
    }
  }

  lemma ActivationStaysWon(w: World, v: World, b: nat)
    requires StoredSound(w) && v.wins == w.wins
    requires v.stored == if b in v.store.routes then w.stored + {(b, v.store.routes[b].route)} else w.stored
    requires v.store.routes == w.store.routes
      || (b in w.store.routes && b in v.store.routes && v.store.routes == w.store.routes[b := v.store.routes[b]]
          && v.store.routes[b].route == w.store.routes[b].route.(active := true))
    ensures StoredSound(v)
  {
    forall c, r | (c, r) in v.stored ensures Win(c, r.epoch, r.owner) in v.wins {
      if (c, r) !in w.stored {
        assert (c, w.store.routes[c].route) in w.stored;
      }
    }
  }

  lemma {:induction false} RunIsSound(steps: seq<Step>)
    ensures Sound(Run(steps))
  {
    if steps != [] {
      RunIsSound(steps[..|steps| - 1]);
      StepKeepsSound(Run(steps[..|steps| - 1]), steps[|steps| - 1]);
    }
  }

  // ---- The theorems ----

  /** No (bucket, epoch) is ever won twice, and later wins of a bucket have larger epochs. */
  lemma EachEpochIsWonOnce(steps: seq<Step>)
    ensures var wins := Run(steps).wins;
      forall i, j :: 0 <= i < j < |wins| && wins[i].bucket == wins[j].bucket ==> wins[i].epoch < wins[j].epoch
  {
    RunIsSound(steps);
  }

  /** A present route carries the persistent epoch of its bucket and belongs to the instance that won it. */
  lemma PresentRouteCarriesThePersistentEpoch(steps: seq<Step>, b: nat)
    requires b in Run(steps).store.routes
    ensures var w := Run(steps); var r := w.store.routes[b].route;
      && b in w.store.epochs && r.epoch == w.store.epochs[b].epoch
      && Win(b, r.epoch, r.owner) in w.wins
      && (forall i :: 0 <= i < |w.wins| && w.wins[i].bucket == b ==> w.wins[i].epoch <= r.epoch)
  {
    RunIsSound(steps);
  }

  /**
   * However stale a resolver's entry is, two routes of a bucket that carry the same epoch name the same
   * owner: a command stamped with an epoch can only have been sent to the instance that won it.
   */
  lemma OneOwnerPerEpoch(steps: seq<Step>, b: nat, r: Route, q: Route)
    requires (b, r) in Run(steps).stored && (b, q) in Run(steps).stored && r.epoch == q.epoch
    ensures r.owner == q.owner
  {
    RunIsSound(steps);
    var wins := Run(steps).wins;
    var i :| 0 <= i < |wins| && wins[i] == Win(b, r.epoch, r.owner);
    var j :| 0 <= j < |wins| && wins[j] == Win(b, q.epoch, q.owner);
    assert i == j;
  }

  /** The persistent epoch of a bucket never falls and never disappears, whatever leases expire. */
  lemma {:induction false} EpochsNeverFall(steps: seq<Step>, later: seq<Step>, b: nat)
    requires b in Run(steps).store.epochs
    ensures b in Run(steps + later).store.epochs
    ensures Run(steps).store.epochs[b].epoch <= Run(steps + later).store.epochs[b].epoch
    decreases |later|
  {
    if later == [] {
      assert steps + later == steps;
    } else {
      var front := later[..|later| - 1];
      EpochsNeverFall(steps, front, b);
      assert (steps + later)[..|steps + later| - 1] == steps + front;
      StepNeverLowersEpochs(steps + front, later[|later| - 1], b);
    }
  }

  lemma StepNeverLowersEpochs(steps: seq<Step>, step: Step, b: nat)
    requires b in Run(steps).store.epochs
    ensures b in Next(Run(steps), step).store.epochs
    ensures Run(steps).store.epochs[b].epoch <= Next(Run(steps), step).store.epochs[b].epoch
  {
    RunIsSound(steps);
    StepKeepsSound(Run(steps), step);
  }
}
