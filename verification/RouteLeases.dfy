/** Whose lease a route hangs on, and what goes when a lease runs out. */
module RouteLeases {
  import opened Prelude
  import opened RouteStore

  /** A claim that finds both keys as it read them writes the next epoch and a route under its own lease; any other claim writes nothing. */
  lemma ClaimsWriteExactly(s: Store, me: Id, lease: Lease, b: nat, routeSeen: Option<RouteKv>, epochSeen: Option<EpochKv>)
    ensures var v := ClaimTxn(s, me, lease, b, routeSeen, epochSeen);
      var asRead :=
        && (if routeSeen.None? then b !in s.routes else b in s.routes && s.routes[b].modRevision == routeSeen.value.modRevision)
        && (if epochSeen.None? then b !in s.epochs else b in s.epochs && s.epochs[b].modRevision == epochSeen.value.modRevision);
      var epoch := if epochSeen.Some? then epochSeen.value.epoch + 1 else 1;
      v == if asRead
           then Store(s.routes[b := RouteKv(Route(me, epoch, routeSeen.None?), s.revision + 1, lease)],
                      s.epochs[b := EpochKv(epoch, s.revision + 1)], s.instances, s.revision + 1)
           else s
  {
  }

  /** An activation of one's own route that is still as it was read turns it ACTIVE and puts it under one's lease. */
  lemma ActivationsWriteExactly(s: Store, me: Id, lease: Lease, b: nat, epoch: int, seen: RouteKv)
    ensures var v := ActivateTxn(s, me, lease, b, epoch, seen);
      v == if seen.route.owner == me && seen.route.epoch == epoch && b in s.routes && s.routes[b].modRevision == seen.modRevision
           then Store(s.routes[b := RouteKv(Route(me, epoch, true), s.revision + 1, lease)], s.epochs, s.instances, s.revision + 1)
           else s
  {
  }

  /** A lease that runs out takes exactly the routes and instances under it, and no epoch. */
  lemma ExpiryTakesExactly(s: Store, lease: Lease)
    ensures var v := Expire(s, lease);
      && v.epochs == s.epochs
      && (forall b :: b in v.routes <==> b in s.routes && s.routes[b].lease != lease)
      && (forall b :: b in v.routes ==> v.routes[b] == s.routes[b])
      && (forall i :: i in v.instances <==> i in s.instances && s.instances[i] != lease)
      && (forall i :: i in v.instances ==> v.instances[i] == s.instances[i])
  {
  }

  // ---- Over runs ----

  /** The transaction of attempt a is what step is about to commit. */
  predicate Commits(w: World, step: Step, a: Attempt) {
    || (step.CommitClaim? && step.token in w.attempts && w.attempts[step.token] == a && a.ClaimReady?)
    || (step.CommitActivate? && step.token in w.attempts && w.attempts[step.token] == a && a.ActivateReady?)
  }

  /** Route kv of bucket b was written by this step of the run, for its owner and under the lease the owner came with. */
  ghost predicate WrittenBy(steps: seq<Step>, k: nat, b: nat, kv: RouteKv) {
    && k < |steps|
    && exists a :: Commits(Run(steps[..k]), steps[k], a) && a.bucket == b && a.me == kv.route.owner && a.lease == kv.lease
  }

  lemma StepWritesForItsOwner(w: World, step: Step, b: nat)
    requires Sound(w) && b in Next(w, step).store.routes
    ensures var kv := Next(w, step).store.routes[b];
      || (b in w.store.routes && w.store.routes[b] == kv)
      || exists a :: Commits(w, step, a) && a.bucket == b && a.me == kv.route.owner && a.lease == kv.lease
  {
    if (step.CommitClaim? || step.CommitActivate?) && step.token in w.attempts {
      var a := w.attempts[step.token];
      assert AttemptSound(w.store, a);
      if step.CommitClaim? && a.ClaimReady? {
        assert Commits(w, step, a);
        ClaimsWriteExactly(w.store, a.me, a.lease, a.bucket, a.routeSeen, a.epochSeen);
      } else if step.CommitActivate? && a.ActivateReady? {
        assert Commits(w, step, a);
        ActivationsWriteExactly(w.store, a.me, a.lease, a.bucket, a.epoch, a.seen);
      }
    }
  }

  /** Every present route hangs on the lease its owner came with when it claimed or activated it. */
  lemma {:induction false} RouteHangsOnItsOwnersLease(steps: seq<Step>, b: nat) returns (k: nat)
    requires b in Run(steps).store.routes
    ensures WrittenBy(steps, k, b, Run(steps).store.routes[b])
  {
    var front, last := steps[..|steps| - 1], steps[|steps| - 1];
    RunIsSound(front);
    StepWritesForItsOwner(Run(front), last, b);
    var kv := Run(steps).store.routes[b];
    if b in Run(front).store.routes && Run(front).store.routes[b] == kv {
      k := RouteHangsOnItsOwnersLease(front, b);
      assert steps[..k] == front[..k] && steps[k] == front[k];
    } else {
      k := |front|;
    }
  }

  /** The instance uses this lease for all its work. */
  predicate WorksUnder(steps: seq<Step>, me: Id, lease: Lease) {
    forall k :: 0 <= k < |steps| ==>
      match steps[k]
      case StartClaim(_, who, l, _) => who == me ==> l == lease
      case StartActivate(_, who, l, _, _) => who == me ==> l == lease
      case _ => true
  }

  predicate AttemptsUnder(w: World, me: Id, lease: Lease) {
    forall t :: t in w.attempts && w.attempts[t].me == me ==> w.attempts[t].lease == lease
  }

  lemma {:induction false} AttemptsCarryTheLease(steps: seq<Step>, me: Id, lease: Lease)
    requires WorksUnder(steps, me, lease)
    ensures AttemptsUnder(Run(steps), me, lease)
  {
    if steps != [] {
      var front := steps[..|steps| - 1];
      assert forall k :: 0 <= k < |front| ==> front[k] == steps[k];
      AttemptsCarryTheLease(front, me, lease);
      assert steps[|steps| - 1] == steps[|front|];
    }
  }

  /** When the lease of an instance that works under one lease runs out, every bucket it owned is free at once. */
  lemma DeadInstancesOwnNothing(steps: seq<Step>, me: Id, lease: Lease, b: nat)
    requires WorksUnder(steps, me, lease)
    ensures var routes := Run(steps + [ExpireLease(lease)]).store.routes; b in routes ==> routes[b].route.owner != me
  {
    assert (steps + [ExpireLease(lease)])[..|steps|] == steps;
    var routes := Run(steps + [ExpireLease(lease)]).store.routes;
    if b in routes && routes[b].route.owner == me {
      var k := RouteHangsOnItsOwnersLease(steps, b);
      var a :| Commits(Run(steps[..k]), steps[k], a) && a.bucket == b && a.me == me && a.lease == Run(steps).store.routes[b].lease;
      assert forall i :: 0 <= i < k ==> steps[..k][i] == steps[i];
      AttemptsCarryTheLease(steps[..k], me, lease);
    }
  }
}
