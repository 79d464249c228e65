/**
 * The generation-guarded read cache: every cached value reflects a database state no older than the last
 * completed invalidation of its key, as long as each reader does its own authoritative read.
 */
module ReadCache {
  import opened Prelude

  type Key = int

  type Millis = int

  /** How many commits on a key a value reflects. */
  type Version = nat

  datatype Entry = Entry(version: Version, freshUntil: Millis)

  /** The Redis side, the database side, and for each key the version its last invalidation promised. */
  datatype Store = Store(entries: map<Key, Entry>, gens: map<Key, nat>, db: map<Key, Version>, floor: map<Key, Version>)

  function At(m: map<Key, nat>, k: Key): nat { if k in m then m[k] else 0 }

  // ---- The atomic effects ----

  function AfterWrite(s: Store, k: Key): Store { s.(db := s.db[k := At(s.db, k) + 1]) }

  /** The invalidation script: a new generation, and the entry goes. */
  function AfterInvalidate(s: Store, k: Key): Store {
    s.(gens := s.gens[k := At(s.gens, k) + 1], entries := s.entries - {k}, floor := s.floor[k := At(s.db, k)])
  }

  /** The fill script: refused when the generation has moved since the reader fetched it. */
  function AfterFill(s: Store, k: Key, gen: nat, e: Entry): Store {
    if At(s.gens, k) != gen then s else s.(entries := s.entries[k := e])
  }

  function AfterExpiry(s: Store, k: Key): Store { s.(entries := s.entries - {k}) }

  /**
   * A commit moves its key's version on by one. An invalidation opens a new generation, removes the entry and
   * promises the present version. A fill stores its entry if and only if the generation is still the one it
   * was read under. An expiry removes the entry. Nothing else moves.
   */
  lemma EffectsExactly(s: Store, k: Key, gen: nat, e: Entry)
    ensures var version, now := if k in s.db then s.db[k] else 0, if k in s.gens then s.gens[k] else 0;
      && AfterWrite(s, k) == s.(db := s.db[k := version + 1])
      && AfterInvalidate(s, k) == Store(s.entries - {k}, s.gens[k := now + 1], s.db, s.floor[k := version])
      && AfterFill(s, k, gen, e) == (if now == gen then s.(entries := s.entries[k := e]) else s)
      && AfterExpiry(s, k).entries == (map q | q in s.entries && q != k :: s.entries[q])
      && AfterExpiry(s, k) == s.(entries := AfterExpiry(s, k).entries)
  {
  }

  // ---- Runs ----

  /** A reader between its calls: it has the generation, or the generation and a value. */
  datatype Reader = Fetched(key: Key, gen: nat) | Read(key: Key, gen: nat, version: Version)

  datatype World = World(store: Store, readers: map<nat, Reader>)

  datatype Step =
    | Write(key: Key)
    | Invalidate(key: Key)
    | Expire(key: Key)
    | FetchGeneration(reader: nat, key: Key)
    | ReadDatabase(reader: nat)
    | JoinRead(reader: nat, leader: nat)
    | Fill(reader: nat, freshUntil: Millis)

  function Start(): World { World(Store(map[], map[], map[], map[]), map[]) }

  function Next(w: World, step: Step): World {
    var s := w.store;
    match step
    case Write(k) => w.(store := AfterWrite(s, k))
    case Invalidate(k) => w.(store := AfterInvalidate(s, k))
    case Expire(k) => w.(store := AfterExpiry(s, k))
    case FetchGeneration(r, k) => w.(readers := w.readers[r := Fetched(k, At(s.gens, k))])
    case ReadDatabase(r) =>
      if r in w.readers && w.readers[r].Fetched?
      then w.(readers := w.readers[r := Read(w.readers[r].key, w.readers[r].gen, At(s.db, w.readers[r].key))]) else w
    case JoinRead(r, leader) =>
      if r in w.readers && w.readers[r].Fetched? && leader in w.readers && w.readers[leader].Read? && w.readers[leader].key == w.readers[r].key
      then w.(readers := w.readers[r := Read(w.readers[r].key, w.readers[r].gen, w.readers[leader].version)]) else w
    case Fill(r, freshUntil) =>
      if r in w.readers && w.readers[r].Read?
      then w.(store := AfterFill(s, w.readers[r].key, w.readers[r].gen, Entry(w.readers[r].version, freshUntil))) else w
  }

  function RunFrom(w: World, steps: seq<Step>): World
    decreases |steps|
  {
    if steps == [] then w else RunFrom(Next(w, steps[0]), steps[1..])
  }

  function Run(steps: seq<Step>): World { RunFrom(Start(), steps) }

  lemma RunFromCons(w: World, step: Step, rest: seq<Step>)
    ensures RunFrom(w, [step] + rest) == RunFrom(Next(w, step), rest)
  {
    assert ([step] + rest)[1..] == rest;
  }

  // ---- The invariant ----

  predicate StoreSound(s: Store) {
    && (forall k :: k in s.floor ==> s.floor[k] <= At(s.db, k))
    && (forall k :: k in s.entries ==> At(s.floor, k) <= s.entries[k].version <= At(s.db, k))
  }

  /** A reader whose generation still stands holds nothing older than the last invalidation. */
  predicate ReaderSound(s: Store, r: Reader) {
    && r.gen <= At(s.gens, r.key)
    && (r.Read? ==> r.version <= At(s.db, r.key))
    && (r.Read? && r.gen == At(s.gens, r.key) ==> At(s.floor, r.key) <= r.version)
  }

  predicate Sound(w: World) {
    StoreSound(w.store) && forall r :: r in w.readers ==> ReaderSound(w.store, w.readers[r])
  }

  ghost predicate Fresh(s: Store) { forall k :: k in s.entries ==> At(s.floor, k) <= s.entries[k].version <= At(s.db, k) }

  // ---- Shared reads ----

  /** The step hands reader r the value that its leader read. */
  predicate Joins(w: World, step: Step) {
    && step.JoinRead? && step.reader in w.readers && w.readers[step.reader].Fetched?
    && step.leader in w.readers && w.readers[step.leader].Read?
    && w.readers[step.leader].key == w.readers[step.reader].key
  }

  /** The value is new enough, or the joiner's generation is gone, so that it will not be filled. */
  predicate Harmless(w: World, reader: nat, leader: nat)
    requires Joins(w, JoinRead(reader, leader))
  {
    var k := w.readers[reader].key;
    w.readers[reader].gen == At(w.store.gens, k) ==> At(w.store.floor, k) <= w.readers[leader].version
  }

  predicate GoodStep(w: World, step: Step) { Joins(w, step) ==> Harmless(w, step.reader, step.leader) }

  predicate GoodJoins(w: World, steps: seq<Step>)
    decreases |steps|
  {
    steps == [] || (GoodStep(w, steps[0]) && GoodJoins(Next(w, steps[0]), steps[1..]))
  }

  predicate NoJoins(steps: seq<Step>) { forall i :: 0 <= i < |steps| ==> !steps[i].JoinRead? }

  /** What a wiring can enforce: a read is only shared among readers of one generation. */
  predicate SameGenerationJoins(w: World, steps: seq<Step>)
    decreases |steps|
  {
    steps == [] || ((Joins(w, steps[0]) ==> w.readers[steps[0].leader].gen == w.readers[steps[0].reader].gen)
                    && SameGenerationJoins(Next(w, steps[0]), steps[1..]))
  }

  lemma StepKeepsSound(w: World, step: Step)
    requires Sound(w) && GoodStep(w, step)
    ensures Sound(Next(w, step))
  {
    var v := Next(w, step);
    forall r | r in v.readers ensures ReaderSound(v.store, v.readers[r]) {
      if r in w.readers { assert ReaderSound(w.store, w.readers[r]); }
      if Joins(w, step) { assert ReaderSound(w.store, w.readers[step.leader]); }
    }
  }

  lemma {:induction false} GoodRunsKeepSound(w: World, steps: seq<Step>)
    requires Sound(w) && GoodJoins(w, steps)
    ensures Sound(RunFrom(w, steps)) && Fresh(RunFrom(w, steps).store)
    decreases |steps|
  {
    if steps != [] {
      StepKeepsSound(w, steps[0]);
      GoodRunsKeepSound(Next(w, steps[0]), steps[1..]);
    }
  }

  lemma {:induction false} NoJoinsAreGood(w: World, steps: seq<Step>)
    requires NoJoins(steps)
    ensures GoodJoins(w, steps)
    decreases |steps|
  {
    if steps != [] {
      assert forall i :: 0 <= i < |steps[1..]| ==> steps[1..][i] == steps[i + 1];
      NoJoinsAreGood(Next(w, steps[0]), steps[1..]);
    }
  }

  /** A join that is not harmless leads to a stale entry at the joiner's own fill. */
  lemma HarmfulJoinsCacheStaleValues(w: World, reader: nat, leader: nat)
    requires Joins(w, JoinRead(reader, leader)) && !Harmless(w, reader, leader)
    ensures !Fresh(RunFrom(Next(w, JoinRead(reader, leader)), [Fill(reader, 0)]).store)
  {
    var v := Next(w, JoinRead(reader, leader));
    RunFromCons(v, Fill(reader, 0), []);
    assert w.readers[reader].key in Next(v, Fill(reader, 0)).store.entries;
  }

  /** In a sound state a join keeps everything sound if and only if it is harmless. */
  lemma JoinKeepsSoundExactly(w: World, reader: nat, leader: nat)
    requires Sound(w) && Joins(w, JoinRead(reader, leader))
    ensures Sound(Next(w, JoinRead(reader, leader))) <==> Harmless(w, reader, leader)
  {
    var v := Next(w, JoinRead(reader, leader));
    if Harmless(w, reader, leader) {
      StepKeepsSound(w, JoinRead(reader, leader));
    } else {
      assert !ReaderSound(v.store, v.readers[reader]);
    }
  }

  /** Two readers that fetched the same generation may share a read. */
  lemma OneGenerationIsHarmless(w: World, reader: nat, leader: nat)
    requires Sound(w) && Joins(w, JoinRead(reader, leader)) && w.readers[leader].gen == w.readers[reader].gen
    ensures Harmless(w, reader, leader)
  {
    assert ReaderSound(w.store, w.readers[leader]);
  }

  lemma {:induction false} OneGenerationRunsAreGood(w: World, steps: seq<Step>)
    requires Sound(w) && SameGenerationJoins(w, steps)
    ensures GoodJoins(w, steps)
    decreases |steps|
  {
    if steps != [] {
      if Joins(w, steps[0]) { OneGenerationIsHarmless(w, steps[0].reader, steps[0].leader); }
      StepKeepsSound(w, steps[0]);
      OneGenerationRunsAreGood(Next(w, steps[0]), steps[1..]);
    }
  }

  /** Fresh now, and after whatever loads, fills, writes and invalidations may follow without a join. */
  ghost predicate StaysFresh(w: World) { forall tail :: NoJoins(tail) ==> Fresh(RunFrom(w, tail).store) }

  ghost predicate FreshAllAlong(w: World, steps: seq<Step>) {
    forall n: nat {:trigger steps[..n]} :: n <= |steps| ==> StaysFresh(RunFrom(w, steps[..n]))
  }

  lemma GoodRunsStayFresh(w: World, steps: seq<Step>, n: nat)
    requires Sound(w) && GoodJoins(w, steps) && n <= |steps|
    ensures StaysFresh(RunFrom(w, steps[..n]))
  {
    GoodPrefix(w, steps, n);
    GoodRunsKeepSound(w, steps[..n]);
    var v := RunFrom(w, steps[..n]);
    forall tail | NoJoins(tail) ensures Fresh(RunFrom(v, tail).store) {
      NoJoinsAreGood(v, tail);
      GoodRunsKeepSound(v, tail);
    }
  }

  lemma {:induction false} GoodPrefix(w: World, steps: seq<Step>, n: nat)
    requires GoodJoins(w, steps) && n <= |steps|
    ensures GoodJoins(w, steps[..n])
    decreases n
  {
    if n > 0 {
      GoodPrefix(Next(w, steps[0]), steps[1..], n - 1);
      assert steps[..n][1..] == steps[1..][..n - 1];
    }
  }

  lemma {:induction false} FreshRunsAreGood(w: World, steps: seq<Step>)
    requires Sound(w) && FreshAllAlong(w, steps)
    ensures GoodJoins(w, steps)
    decreases |steps|
  {
    if steps != [] {
      var v := Next(w, steps[0]);
      assert steps[..1] == [steps[0]] + [];
      RunFromCons(w, steps[0], []);
      assert StaysFresh(v);
      if !GoodStep(w, steps[0]) {
        HarmfulJoinsCacheStaleValues(w, steps[0].reader, steps[0].leader);
        assert NoJoins([Fill(steps[0].reader, 0)]);
      }
      StepKeepsSound(w, steps[0]);
      forall n: nat | n <= |steps[1..]| ensures StaysFresh(RunFrom(v, steps[1..][..n])) {
        assert steps[..n + 1] == [steps[0]] + steps[1..][..n];
        RunFromCons(w, steps[0], steps[1..][..n]);
      }
      FreshRunsAreGood(v, steps[1..]);
    }
  }

  /**
   * Over every run: each cached entry reflects a state at least as new as the last completed invalidation
   * of its key, at every moment and whatever follows without shared reads, if and only if every read that
   * was shared was new enough for the generation of the reader that joined it.
   */
  lemma EntriesAreFresh(steps: seq<Step>)
    ensures GoodJoins(Start(), steps) <==> FreshAllAlong(Start(), steps)
    ensures GoodJoins(Start(), steps) ==> Fresh(Run(steps).store)
  {
    if GoodJoins(Start(), steps) {
      GoodRunsKeepSound(Start(), steps);
      forall n: nat | n <= |steps| ensures StaysFresh(RunFrom(Start(), steps[..n])) { GoodRunsStayFresh(Start(), steps, n); }
    } else if FreshAllAlong(Start(), steps) {
      FreshRunsAreGood(Start(), steps);
    }
  }

  /** Without shared reads, or with reads shared within one generation only, every entry is fresh. */
  lemma EnforceableSharingIsFresh(steps: seq<Step>)
    requires NoJoins(steps) || SameGenerationJoins(Start(), steps)
    ensures FreshAllAlong(Start(), steps) && Fresh(Run(steps).store)
  {
    if NoJoins(steps) { NoJoinsAreGood(Start(), steps); } else { OneGenerationRunsAreGood(Start(), steps); }
    EntriesAreFresh(steps);
  }

  const SHARED_READ: seq<Step> := [
    FetchGeneration(0, 7), ReadDatabase(0), Write(7), Invalidate(7), FetchGeneration(1, 7), JoinRead(1, 0), Fill(1, 0)]

  /** A late reader that joins an older read fills a value from before the invalidation under the new generation. */
  lemma SharedReadsCacheStaleValues()
    ensures var s := Run(SHARED_READ).store; 7 in s.entries && s.entries[7].version < At(s.floor, 7)
  {
    var u := FirstReader();
    var w := SecondReader(u);
    var last := [JoinRead(1, 0), Fill(1, 0)];
    assert SHARED_READ == [FetchGeneration(0, 7), ReadDatabase(0)] + ([Write(7), Invalidate(7)] + ([FetchGeneration(1, 7)] + last));
    JoinAndFill(w);
  }

  lemma JoinAndFill(w: World)
    requires w == World(Store(map[], map[7 := 1], map[7 := 1], map[7 := 1]), map[0 := Read(7, 0, 0), 1 := Fetched(7, 1)])
    ensures RunFrom(w, [JoinRead(1, 0), Fill(1, 0)]).store == Store(map[7 := Entry(0, 0)], map[7 := 1], map[7 := 1], map[7 := 1])
  {
    var v := Next(w, JoinRead(1, 0));
    assert v.readers[1] == Read(7, 1, 0);
    TwoSteps(w, JoinRead(1, 0), Fill(1, 0), []);
    assert [JoinRead(1, 0), Fill(1, 0)] + [] == [JoinRead(1, 0), Fill(1, 0)];
  }

  lemma TwoSteps(w: World, a: Step, b: Step, rest: seq<Step>)
    ensures RunFrom(w, [a, b] + rest) == RunFrom(Next(Next(w, a), b), rest)
  {
    assert [a, b] + rest == [a] + ([b] + rest);
    RunFromCons(w, a, [b] + rest);
    RunFromCons(Next(w, a), b, rest);
  }

  /** Reader 0 has read the database in its first version. */
  lemma FirstReader() returns (w: World)
    ensures w == World(Store(map[], map[], map[], map[]), map[0 := Read(7, 0, 0)])
    ensures forall rest :: RunFrom(Start(), [FetchGeneration(0, 7), ReadDatabase(0)] + rest) == RunFrom(w, rest)
  {
    w := Next(Next(Start(), FetchGeneration(0, 7)), ReadDatabase(0));
    forall rest ensures RunFrom(Start(), [FetchGeneration(0, 7), ReadDatabase(0)] + rest) == RunFrom(w, rest) {
      TwoSteps(Start(), FetchGeneration(0, 7), ReadDatabase(0), rest);
    }
  }

  /** A commit and its invalidation, and then reader 1 fetches the new generation. */
  lemma SecondReader(u: World) returns (w: World)
    requires u == World(Store(map[], map[], map[], map[]), map[0 := Read(7, 0, 0)])
    ensures w == World(Store(map[], map[7 := 1], map[7 := 1], map[7 := 1]), map[0 := Read(7, 0, 0), 1 := Fetched(7, 1)])
    ensures forall rest :: RunFrom(u, [Write(7), Invalidate(7)] + ([FetchGeneration(1, 7)] + rest)) == RunFrom(w, rest)
  {
    var v := Next(Next(u, Write(7)), Invalidate(7));
    w := Next(v, FetchGeneration(1, 7));
    forall rest ensures RunFrom(u, [Write(7), Invalidate(7)] + ([FetchGeneration(1, 7)] + rest)) == RunFrom(w, rest) {
      TwoSteps(u, Write(7), Invalidate(7), [FetchGeneration(1, 7)] + rest);
      RunFromCons(v, FetchGeneration(1, 7), rest);
    }
  }

  /** b may follow a: nothing moved backwards, and an unchanged generation means an unchanged floor. */
  ghost predicate StoreLater(a: Store, b: Store) {
    && StoreSound(b)
    && (forall k :: At(a.db, k) <= At(b.db, k) && At(a.gens, k) <= At(b.gens, k))
    && (forall k :: At(a.floor, k) <= At(b.floor, k))
    && (forall k :: At(a.gens, k) == At(b.gens, k) ==> At(a.floor, k) == At(b.floor, k))
  }

  lemma LaterTwice(a: Store, b: Store, c: Store)
    requires StoreLater(a, b) && (c == b || StoreLater(b, c))
    ensures StoreLater(a, c)
  {
    forall k ensures At(a.gens, k) == At(c.gens, k) ==> At(a.floor, k) == At(c.floor, k) {
      assert At(a.gens, k) <= At(b.gens, k);
    }
  }

  lemma WriteIsLater(s: Store, k: Key)
    requires StoreSound(s)
    ensures StoreLater(s, AfterWrite(s, k))
  {
  }

  lemma InvalidateIsLater(s: Store, k: Key)
    requires StoreSound(s)
    ensures StoreLater(s, AfterInvalidate(s, k))
  {
  }

  lemma ExpiryIsLater(s: Store, k: Key)
    requires StoreSound(s)
    ensures StoreLater(s, AfterExpiry(s, k))
  {
  }

  lemma FillIsLater(s: Store, k: Key, gen: nat, e: Entry)
    requires StoreSound(s) && At(s.floor, k) <= e.version <= At(s.db, k)
    ensures StoreLater(s, AfterFill(s, k, gen, e))
  {
  }

  // ---- The cached client, with everyone else running between its calls ----

  datatype LoadState = Hit | Stale | Miss

  /** Which of a load's three Redis calls fail: the entry, the generation, the removal of a corrupt entry. */
  datatype RedisFaults = RedisFaults(entryLost: bool, generationLost: bool, dropLost: bool)

  class CachedSnapshotClient {
    var store: Store
    const ttl: Millis

    constructor (ttl: Millis)
      ensures StoreSound(store) && this.ttl == ttl && store == Store(map[], map[], map[], map[])
    {
      store := Store(map[], map[], map[], map[]);
      this.ttl := ttl;
    }

    /** Between two calls anyone may write, invalidate, fill a value of their own, or see entries expire. */
    twostate predicate Later()
      reads this
    {
      StoreLater(old(store), store)
    }

    /** The entry is there, is read, and has not passed its time. */
    predicate FreshIn(s: Store, k: Key, now: Millis, redis: RedisFaults, corrupt: bool) {
      !redis.entryLost && k in s.entries && !corrupt && now <= s.entries[k].freshUntil
    }

    method OthersRun()
      requires StoreSound(store)
      modifies this`store
      ensures Later()
    {
      var n: nat := *;
      while n > 0
        invariant Later()
      {
        ghost var before := store;
        var what, k: Key, v: nat, until: Millis := *, *, *, *;
        if what == 0 {
          WriteIsLater(store, k);
          store := AfterWrite(store, k);
        } else if what == 1 {
          InvalidateIsLater(store, k);
          store := AfterInvalidate(store, k);
        } else if what == 2 && At(store.floor, k) <= v <= At(store.db, k) {
          FillIsLater(store, k, At(store.gens, k), Entry(v, until));
          store := AfterFill(store, k, At(store.gens, k), Entry(v, until));
        } else if what == 3 {
          ExpiryIsLater(store, k);
          store := AfterExpiry(store, k);
        }
        LaterTwice(old(store), before, store);
        n := n - 1;
      }
    }

    method InvalidateKey(k: Key)
      requires StoreSound(store)
      modifies this`store
      ensures store == AfterInvalidate(old(store), k) && StoreSound(store)
      ensures k !in store.entries && At(store.floor, k) == At(store.db, k)
    {
      store := store.(gens := store.gens[k := At(store.gens, k) + 1],
                      entries := store.entries - {k},
                      floor := store.floor[k := At(store.db, k)]);
    }

    /**
     * Looks the entry up, then the generation; a generation comes back only when it will be needed and
     * Redis answered, and then it is the present one.
     */
    method Load(k: Key, now: Millis, redis: RedisFaults, corrupt: bool) returns (state: LoadState, cached: Option<Version>, gen: Option<nat>)
      requires StoreSound(store)
      modifies this`store
      ensures Later()
      ensures state == Miss <==> cached.None?
      ensures cached.Some? ==> cached.value >= At(old(store).floor, k) && k in old(store).entries && cached.value == old(store).entries[k].version
      ensures state == Hit ==> now <= old(store).entries[k].freshUntil
      ensures state == Hit <==> !redis.entryLost && k in old(store).entries && !corrupt && now <= old(store).entries[k].freshUntil
      ensures state == Stale <==>
        !redis.entryLost && !redis.generationLost && k in old(store).entries && !corrupt && old(store).entries[k].freshUntil < now
      ensures gen.Some? <==> state != Hit && !redis.entryLost && !redis.generationLost && !(corrupt && k in old(store).entries)
      ensures gen.Some? ==> gen.value == At(store.gens, k)
      ensures corrupt && !redis.entryLost && !redis.dropLost && k in old(store).entries ==> k !in store.entries
    {
      if redis.entryLost {
        return Miss, None, None;
      }
      if k in store.entries {
        var e := store.entries[k];
        if corrupt {
          if !redis.dropLost {
            InvalidateIsLater(store, k);
            InvalidateKey(k);
          }
          return Miss, None, None;
        }
        if now <= e.freshUntil {
          return Hit, Some(e.version), None;
        }
        OthersRun();
        if redis.generationLost {
          return Miss, None, None;
        }
        return Stale, Some(e.version), Some(At(store.gens, k));
      }
      OthersRun();
      if redis.generationLost {
        return Miss, None, None;
      }
      return Miss, None, Some(At(store.gens, k));
    }

    method FillKey(k: Key, gen: Option<nat>, version: Version, now: Millis)
      requires StoreSound(store) && version <= At(store.db, k)
      requires gen.Some? && gen.value == At(store.gens, k) ==> version >= At(store.floor, k)
      modifies this`store
      ensures StoreSound(store)
      ensures store == if gen.Some? && ttl > 0 then AfterFill(old(store), k, gen.value, Entry(version, now + ttl)) else old(store)
      ensures store.entries == if gen.Some? && ttl > 0 && At(old(store).gens, k) == gen.value
                               then old(store).entries[k := Entry(version, now + ttl)] else old(store).entries
    {
      if gen.None? || ttl <= 0 {
        return;
      }
      if At(store.gens, k) == gen.value {
        store := store.(entries := store.entries[k := Entry(version, now + ttl)]);
      }
    }

    /**
     * Whatever runs in between, a read returns a state no older than the last invalidation that had
     * completed when it began: from the cache, from the database, or, when the database fails in a way
     * that may be papered over, from the expired entry it had seen.
     */
    method GetSnapshot(k: Key, now: Millis, redis: RedisFaults, corrupt: bool, dbFails: bool, mayServeStale: bool) returns (r: Option<Version>)
      requires StoreSound(store)
      modifies this`store
      ensures StoreSound(store)
      ensures r.Some? ==> r.value >= At(old(store).floor, k)
      ensures r.None? ==> dbFails
      ensures FreshIn(old(store), k, now, redis, corrupt) ==> r == Some(old(store).entries[k].version)
      ensures dbFails && !FreshIn(old(store), k, now, redis, corrupt) ==>
        r == if mayServeStale && !redis.entryLost && !redis.generationLost && k in old(store).entries && !corrupt
             then Some(old(store).entries[k].version) else None
      ensures r.Some? ==> r.value <= At(store.db, k)
    {
      var state, cached, gen := Load(k, now, redis, corrupt);
      if state == Hit {
        return cached;
      }
      OthersRun();
      if dbFails {
        if state == Stale && mayServeStale {
          return cached;
        }
        return None;
      }
      var value := At(store.db, k);
      OthersRun();
      FillKey(k, gen, value, now);
      return Some(value);
    }
  }
}
