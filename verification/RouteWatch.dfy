/** What a watch of the route prefix reports of a run, and so what resolvers can disagree about. */
module RouteWatch {
  import opened Prelude
  import opened RouteStore
  import opened RouteControl

  function RouteOf(s: Store, b: nat): Option<Route> { if b in s.routes then Some(s.routes[b].route) else None }

  function Present(s: Store): map<nat, Route> { map b | b in s.routes :: s.routes[b].route }

  /** One event for each route key the transaction from s to v wrote or removed, in any order. */
  ghost predicate Watched(s: Store, v: Store, events: seq<Event>) {
    && (forall i :: 0 <= i < |events| ==>
          events[i].revision == v.revision > s.revision && events[i].route == RouteOf(v, events[i].bucket))
    && (forall i, j :: 0 <= i < j < |events| ==> events[i].bucket != events[j].bucket)
    && (forall b: nat :: RouteOf(s, b) != RouteOf(v, b) ==> exists i :: 0 <= i < |events| && events[i].bucket == b)
  }

  /** The events of a run: those of its steps, one step after the other. */
  ghost predicate WatchLog(steps: seq<Step>, log: seq<Event>) {
    if steps == [] then log == []
    else
      var front := steps[..|steps| - 1];
      exists n :: 0 <= n <= |log| && WatchLog(front, log[..n]) && Watched(Run(front).store, Run(steps).store, log[n..])
  }

  /** Every step has events to report. */
  lemma {:induction false} SomeLog(steps: seq<Step>) returns (log: seq<Event>)
    ensures WatchLog(steps, log)
  {
    log := [];
    if steps != [] {
      var front := steps[..|steps| - 1];
      var before := SomeLog(front);
      var events := EventsOfAStep(front, steps[|steps| - 1]);
      log := before + events;
      assert log[..|before|] == before && log[|before|..] == events;
    }
  }

  lemma EventsOfAStep(front: seq<Step>, step: Step) returns (events: seq<Event>)
    ensures Watched(Run(front).store, Next(Run(front), step).store, events)
  {
    var s, v := Run(front).store, Next(Run(front), step).store;
    RunIsSound(front);
    if v == s {
      events := [];
    } else {
      events := EventsFor(s, v, s.routes.Keys + v.routes.Keys);
      assert v.revision == s.revision + 1;
    }
  }

  /** The changes of these keys, in some order. */
  lemma {:induction false} EventsFor(s: Store, v: Store, keys: set<nat>) returns (events: seq<Event>)
    ensures forall i :: 0 <= i < |events| ==> events[i] == Event(v.revision, events[i].bucket, RouteOf(v, events[i].bucket))
    ensures forall i :: 0 <= i < |events| ==> events[i].bucket in keys
    ensures forall i, j :: 0 <= i < j < |events| ==> events[i].bucket != events[j].bucket
    ensures forall b :: b in keys ==> exists i :: 0 <= i < |events| && events[i].bucket == b
  {
    events := [];
    if keys != {} {
      var b := SomeElement(keys);
      var rest := EventsFor(s, v, keys - {b});
      events := rest + [Event(v.revision, b, RouteOf(v, b))];
      forall c | c in keys ensures exists i :: 0 <= i < |events| && events[i].bucket == c {
        if c == b {
          assert events[|rest|].bucket == b;
        } else {
          assert c in keys - {b};
          var i :| 0 <= i < |rest| && rest[i].bucket == c;
          assert events[i].bucket == c;
        }
      }
    }
  }

  // ---- What the log shows ----

  predicate Touches(events: seq<Event>, b: nat) { exists i :: 0 <= i < |events| && events[i].bucket == b }

  function Shown(table: map<nat, Route>, b: nat): Option<Route> { if b in table then Some(table[b]) else None }

  /** Applying the events of one step to a table changes the keys they touch, as they say. */
  lemma {:induction false} TableAfterEvents(log: seq<Event>, events: seq<Event>, v: Store, b: nat)
    requires forall i :: 0 <= i < |events| ==> events[i].revision == v.revision && events[i].route == RouteOf(v, events[i].bucket)
    ensures Shown(TableAt(log + events, v.revision), b) ==
      if Touches(events, b) then RouteOf(v, b) else Shown(TableAt(log, v.revision), b)
    decreases |events|
  {
    if events == [] {
      assert log + events == log;
    } else {
      var front, e := events[..|events| - 1], events[|events| - 1];
      TableAfterEvents(log, front, v, b);
      assert (log + events)[..|log + events| - 1] == log + front && (log + events)[|log + events| - 1] == e;
      assert Touches(events, b) <==> Touches(front, b) || e.bucket == b by {
        if Touches(front, b) {
          var i :| 0 <= i < |front| && front[i].bucket == b;
          assert events[i].bucket == b;
        }
        if e.bucket == b { assert events[|events| - 1].bucket == b; }
      }
    }
  }

  lemma {:induction false} EarlierTable(log: seq<Event>, revision: nat, later: nat)
    requires revision <= later && forall i :: 0 <= i < |log| ==> log[i].revision <= revision
    ensures TableAt(log, later) == TableAt(log, revision)
  {
    if log != [] { EarlierTable(log[..|log| - 1], revision, later); }
  }

  ghost predicate LogSound(w: World, log: seq<Event>) {
    && InRevisionOrder(log)
    && (forall i :: 0 <= i < |log| ==> log[i].revision <= w.store.revision)
    && (forall i :: 0 <= i < |log| && log[i].route.Some? ==> (log[i].bucket, log[i].route.value) in w.stored)
    && (forall b :: Shown(TableAt(log, w.store.revision), b) == RouteOf(w.store, b))
  }

  lemma StepKeepsLogSound(w: World, v: World, log: seq<Event>, events: seq<Event>)
    requires LogSound(w, log) && Watched(w.store, v.store, events) && w.store.revision <= v.store.revision
    requires w.stored <= v.stored && forall b :: b in v.store.routes ==> (b, v.store.routes[b].route) in v.stored
    ensures LogSound(v, log + events)
  {
    EarlierTable(log, w.store.revision, v.store.revision);
    forall b ensures Shown(TableAt(log + events, v.store.revision), b) == RouteOf(v.store, b) {
      TableAfterEvents(log, events, v.store, b);
      assert Touches(events, b) || RouteOf(v.store, b) == RouteOf(w.store, b);
    }
  }

  lemma {:induction false} LogIsSound(steps: seq<Step>, log: seq<Event>)
    requires WatchLog(steps, log)
    ensures LogSound(Run(steps), log)
  {
    if steps != [] {
      var front := steps[..|steps| - 1];
      var n := LastStepsEvents(steps, log);
      LogIsSound(front, log[..n]);
      StepGrows(front, steps[|steps| - 1]);
      StepKeepsLogSound(Run(front), Run(steps), log[..n], log[n..]);
      assert log[..n] + log[n..] == log;
    }
  }

  lemma LastStepsEvents(steps: seq<Step>, log: seq<Event>) returns (n: nat)
    requires steps != [] && WatchLog(steps, log)
    ensures n <= |log| && WatchLog(steps[..|steps| - 1], log[..n])
    ensures Watched(Run(steps[..|steps| - 1]).store, Run(steps).store, log[n..])
  {
    n :| 0 <= n <= |log| && WatchLog(steps[..|steps| - 1], log[..n])
      && Watched(Run(steps[..|steps| - 1]).store, Run(steps).store, log[n..]);
  }

  lemma StepGrows(front: seq<Step>, step: Step)
    ensures var w, v := Run(front), Next(Run(front), step);
      && w.store.revision <= v.store.revision && w.stored <= v.stored
      && (forall b :: b in v.store.routes ==> (b, v.store.routes[b].route) in v.stored)
  {
    RunIsSound(front);
    StepKeepsSound(Run(front), step);
  }

  /**
   * The log of a run is in revision order and leaves exactly the routes the store has: reading the
   * prefix and replaying the log agree, so a resolver may do either. It reports stored routes only.
   */
  lemma LogShowsTheStore(steps: seq<Step>, log: seq<Event>)
    requires WatchLog(steps, log)
    ensures InRevisionOrder(log) && TableAt(log, Run(steps).store.revision) == Present(Run(steps).store)
    ensures forall i :: 0 <= i < |log| && log[i].route.Some? ==> (log[i].bucket, log[i].route.value) in Run(steps).stored
  {
    LogIsSound(steps, log);
    var s := Run(steps).store;
    SameTable(TableAt(log, s.revision), s);
  }

  lemma SameTable(table: map<nat, Route>, s: Store)
    requires forall b :: Shown(table, b) == RouteOf(s, b)
    ensures table == Present(s)
  {
    forall b ensures b in table <==> b in Present(s) { assert Shown(table, b) == RouteOf(s, b); }
    forall b | b in table ensures table[b] == Present(s)[b] { assert Shown(table, b) == RouteOf(s, b); }
  }

  /**
   * Two resolvers that show whatever revisions of one run never stamp a bucket's commands with the same
   * epoch and different owners: a stale route is told from the present one by its epoch.
   */
  lemma ResolversAgreePerEpoch(steps: seq<Step>, log: seq<Event>, one: nat, other: nat, b: nat)
    requires WatchLog(steps, log) && b in TableAt(log, one) && b in TableAt(log, other)
    requires TableAt(log, one)[b].epoch == TableAt(log, other)[b].epoch
    ensures TableAt(log, one)[b].owner == TableAt(log, other)[b].owner
  {
    LogShowsTheStore(steps, log);
    Resolver.ShownWasStored(log, one, b);
    Resolver.ShownWasStored(log, other, b);
    OneOwnerPerEpoch(steps, b, TableAt(log, one)[b], TableAt(log, other)[b]);
  }

  /** A bucket's shown epoch never exceeds the persistent one, and equals it once the resolver is up to date. */
  lemma ShownEpochsAreNotAhead(steps: seq<Step>, log: seq<Event>, revision: nat, b: nat)
    requires WatchLog(steps, log) && b in TableAt(log, revision)
    ensures var s := Run(steps).store;
      && b in s.epochs && TableAt(log, revision)[b].epoch <= s.epochs[b].epoch
      && (revision == s.revision ==> TableAt(log, revision)[b].epoch == s.epochs[b].epoch)
  {
    LogShowsTheStore(steps, log);
    RunIsSound(steps);
    Resolver.ShownWasStored(log, revision, b);
    var w, r := Run(steps), TableAt(log, revision)[b];
    assert (b, r) in w.stored && Win(b, r.epoch, r.owner) in w.wins;
    if revision == w.store.revision { PresentRouteCarriesThePersistentEpoch(steps, b); }
  }
}
