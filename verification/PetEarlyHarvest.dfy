/** A run in which a pet harvests twice within less than half a minute. */
module PetEarlyHarvest {
  import opened Prelude
  import opened FarmDomain
  import opened FarmRules
  import opened FarmTables
  import opened Cluster
  import opened FarmLog
  import opened PetSlots

  const ONE_SHARD := Wiring(1, false)

  ghost predicate Reachable(w: World) { exists steps :: Run(ONE_SHARD, steps) == w }

  lemma Go(w: World, s: Step) returns (v: World)
    requires Shape(w) && Reachable(w)
    ensures v == Next(w, s) && Shape(v) && Reachable(v)
  {
    var steps :| Run(ONE_SHARD, steps) == w;
    RunSnoc(ONE_SHARD, steps, s);
    StepKeepsShape(w, s);
    v := Run(ONE_SHARD, steps + [s]);
  }

  function Wheat(k: int, at: Time): Plot { Plot(k, "1", Growing, at, at + 3 * MINUTE, 0, 5) }

  /** Twelve plots, these wheat fields among them, the rest empty. */
  ghost predicate Fields(plots: Plots, wheat: map<int, Time>) {
    && WellKeyed(plots) && (forall k :: k in plots <==> 1 <= k <= 12)
    && (forall k :: k in plots ==> if k in wheat then plots[k] == Wheat(k, wheat[k]) else plots[k].status == Empty)
  }

  predicate HasSeeds(db: Db, seeds: nat) { CanDeduct(db.inventory, InventoryKey(1, SeedItem, 1), seeds) }

  /** User 1's farm on the way: its fields, its slot, its log, and what is used up. */
  ghost predicate Stage(w: World, clock: Time, slot: Option<Time>, wheat: map<int, Time>, log: seq<Entry>,
                        used: set<string>, seeds: nat, pet: bool) {
    && Shape(w) && Reachable(w) && w.wiring == ONE_SHARD && w.clock == clock && LogOf(w, 1) == log
    && (forall e :: e in w.events[0] || e in w.shards[0].outbox ==> e < |log|)
    && (var db := w.shards[0];
        && 1 in db.farms && db.farms[1].ownerId == 1 && db.farms[1].version == |log| && db.farms[1].routeEpoch == 0
        && db.farms[1].nextPetAt == slot && Fields(Unmarshal(db.farms[1].snapshot), wheat)
        && (forall key :: key in db.receipts ==> key.cmdId in used)
        && HasSeeds(db, seeds)
        && 1 in db.wallets && (if pet then 1 in db.pets && db.pets[1] == Pet(true, true) else 1 !in db.pets && db.wallets[1] >= PET_PRICE))
  }

  lemma Opened() returns (w: World)
    ensures Stage(w, 0, None, map[], [], {}, INIT_SEEDS, false)
  {
    var start := Start(ONE_SHARD);
    assert Run(ONE_SHARD, []) == start;
    w := Go(start, CreateAccount(1));
    SnapshotRoundTrip(INIT_PLOTS);
  }

  lemma Ticked(w: World, clock: Time, to: Time, slot: Option<Time>, wheat: map<int, Time>, log: seq<Entry>,
               used: set<string>, seeds: nat, pet: bool) returns (v: World)
    requires Stage(w, clock, slot, wheat, log, used, seeds, pet) && clock < to
    ensures Stage(v, to, slot, wheat, log, used, seeds, pet)
  {
    v := Go(w, Tick(to));
  }

  lemma Bought(w: World, clock: Time, wheat: map<int, Time>, log: seq<Entry>, used: set<string>, seeds: nat) returns (v: World)
    requires Stage(w, clock, None, wheat, log, used, seeds, false) && clock > 0
    ensures Stage(v, clock, Some(SlotAfter(clock)), wheat, log, used, seeds, true)
  {
    v := Go(w, BuyPet(1, clock, 0));
  }

  /** A farm command of user 1 that commits. */
  lemma CommittedNow(w: World, cmd: Command, at: Time, eventId: nat) returns (v: World, done: Committed)
    requires Shape(w) && Reachable(w) && FarmCommits(w, cmd, at, eventId)
    ensures Shape(v) && Reachable(v) && FarmCommitted(w, v, cmd, at, eventId, done)
  {
    var s := CommitFarm(cmd, at, eventId);
    v := Go(w, s);
    NextCommits(w, cmd, at, eventId);
    done := CommitFarmCommits(w, cmd, at, eventId);
  }

  lemma NextCommits(w: World, cmd: Command, at: Time, eventId: nat)
    requires Shape(w)
    ensures Next(w, CommitFarm(cmd, at, eventId)) == AfterCommitFarm(w, cmd, at, eventId)
  {
  }

  function PlantCommand(k: int, id: string, version: nat): Command { Command(id, 1, 1, Plant, k, "1", 0, version, 0, 0) }

  function HarvestCommand(k: int, id: string, slot: Time): Command { Command(id, 1, 1, PetAutoHarvest, k, "", 0, 0, 0, slot) }

  lemma WheatIsKnown()
    ensures GetCropConfig("1").Ok? && GrowthDurationFor("1") == 3 * MINUTE && HarvestYieldForCrop("1") == 5 && CropIdToItemId("1") == 1
  {
  }

  ghost predicate RowMoved(was: FarmRow, row: FarmRow, cmd: Command, at: Time, plots: Plots) {
    && row.ownerId == was.ownerId && row.version == was.version + 1 && row.routeEpoch == was.routeEpoch
    && row.nextPetAt == (if cmd.kind == PetAutoHarvest then Some(SlotAfter(at)) else was.nextPetAt)
    && Unmarshal(row.snapshot) == plots
  }

  predicate KeysMoved(was: Db, db: Db, cmd: Command, eventId: nat) {
    && (forall e :: e in db.outbox ==> e in was.outbox || e == eventId)
    && (forall key :: key in db.receipts ==> key in was.receipts || key.cmdId == cmd.cmdId)
    && db.wallets == was.wallets && db.pets == was.pets
  }

  ghost predicate HistoryMoved(w: World, v: World, cmd: Command, at: Time)
    requires |w.events| > 0 && |v.events| > 0
  {
    && LogOf(v, 1) == LogOf(w, 1) + [Entry(cmd, at)] && v.clock == w.clock
    && (forall e :: e in v.events[0] ==> e in w.events[0] || e == |LogOf(w, 1)|)
  }

  /** What a committed command of farm 1 did to its row, its log, and the keys that are used up. */
  ghost predicate Moved(w: World, v: World, cmd: Command, at: Time, plots: Plots) {
    && Shape(w) && Shape(v) && Reachable(v) && w.wiring == v.wiring == ONE_SHARD
    && HistoryMoved(w, v, cmd, at)
    && (var was, db := w.shards[0], v.shards[0];
        && KeysMoved(was, db, cmd, |LogOf(w, 1)|)
        && (forall n {:trigger HasSeeds(was, n)} :: 1 <= n && HasSeeds(was, n) ==> HasSeeds(db, if cmd.kind == Plant then n - 1 else n))
        && 1 in was.farms && 1 in db.farms && RowMoved(was.farms[1], db.farms[1], cmd, at, plots))
  }

  lemma CommitMoves(w: World, cmd: Command, at: Time, plots: Plots) returns (v: World)
    requires Shape(w) && Reachable(w) && w.wiring == ONE_SHARD && FarmCommits(w, cmd, at, |LogOf(w, 1)|) && cmd.farmId == 1
    requires cmd.kind == PetAutoHarvest || (cmd.kind == Plant && cmd.cropId == "1" && cmd.actorUser == 1)
    requires Apply(Unmarshal(w.shards[0].farms[1].snapshot), cmd, at).Ok? && WellKeyed(plots)
    requires Apply(Unmarshal(w.shards[0].farms[1].snapshot), cmd, at).value.plots == plots
    ensures Moved(w, v, cmd, at, plots)
  {
    var done;
    v, done := CommittedNow(w, cmd, at, |LogOf(w, 1)|);
    SnapshotRoundTrip(plots);
    CommittedMoves(w, v, cmd, at, done, plots);
  }

  lemma CommittedMoves(w: World, v: World, cmd: Command, at: Time, done: Committed, plots: Plots)
    requires Shape(v) && Reachable(v) && w.wiring == ONE_SHARD && FarmCommitted(w, v, cmd, at, |LogOf(w, 1)|, done) && cmd.farmId == 1
    requires cmd.kind == PetAutoHarvest || (cmd.kind == Plant && cmd.cropId == "1" && cmd.actorUser == 1)
    requires Apply(Unmarshal(w.shards[0].farms[1].snapshot), cmd, at).Ok? && Unmarshal(Marshal(plots)) == plots
    requires Apply(Unmarshal(w.shards[0].farms[1].snapshot), cmd, at).value.plots == plots
    ensures Moved(w, v, cmd, at, plots)
  {
    assert v.shards[0] == done.db;
    CommitMovesRow(w.shards[0], cmd, at, |LogOf(w, 1)|, done, plots);
    CommitMovesSeeds(w.shards[0], cmd, at, |LogOf(w, 1)|, done);
  }

  lemma CommitMovesRow(db: Db, cmd: Command, at: Time, eventId: nat, done: Committed, plots: Plots)
    requires FarmCommitEffect(db, ONE_SHARD, cmd, at, eventId, done) && cmd.farmId == 1 && 1 in db.farms
    requires Apply(Unmarshal(db.farms[1].snapshot), cmd, at).Ok? && Unmarshal(Marshal(plots)) == plots
    requires Apply(Unmarshal(db.farms[1].snapshot), cmd, at).value.plots == plots
    ensures 1 in done.db.farms && RowMoved(db.farms[1], done.db.farms[1], cmd, at, plots) && KeysMoved(db, done.db, cmd, eventId)
  {
  }

  lemma CommitMovesSeeds(db: Db, cmd: Command, at: Time, eventId: nat, done: Committed)
    requires FarmCommitEffect(db, ONE_SHARD, cmd, at, eventId, done)
    requires cmd.kind == PetAutoHarvest || (cmd.kind == Plant && cmd.cropId == "1" && cmd.actorUser == 1)
    ensures forall n {:trigger HasSeeds(db, n)} :: 1 <= n && HasSeeds(db, n) ==> HasSeeds(done.db, if cmd.kind == Plant then n - 1 else n)
  {
    WheatIsKnown();
  }

  /** A new identifier and the next event number are free. */
  lemma KeysAreFree(w: World, clock: Time, slot: Option<Time>, wheat: map<int, Time>, log: seq<Entry>,
                    used: set<string>, seeds: nat, pet: bool, id: string)
    requires Stage(w, clock, slot, wheat, log, used, seeds, pet) && id !in used
    ensures FreshEvent(w, |log|) && ReceiptKey(1, id) !in w.shards[0].receipts && |log| !in w.shards[0].outbox
  {
    assert ReceiptKey(1, id).cmdId == id;
  }

  /** What makes a farm command of user 1 commit, once its keys are free. */
  lemma AtHome(w: World, clock: Time, cmd: Command, eventId: nat)
    requires Shape(w) && w.wiring == ONE_SHARD && w.clock == clock > 0 && 1 in w.shards[0].farms
    requires cmd.farmId == 1 && !Economic(cmd.kind) && FreshEvent(w, eventId)
    requires FinishFarm(w.shards[0], ONE_SHARD, cmd, clock, eventId).Ok?
    ensures FarmCommits(w, cmd, clock, eventId)
  {
  }

  lemma EmptyFieldIsPlanted(plots: Plots, clock: Time, wheat: map<int, Time>, k: int, cmd: Command)
    requires Fields(plots, wheat) && 1 <= k <= 12 && k !in wheat && cmd.kind == Plant && cmd.plotId == k && cmd.cropId == "1"
    ensures var r := Apply(plots, cmd, clock); r.Ok? && r.value.plots == plots[k := Wheat(k, clock)]
  {
    WheatIsKnown();
  }

  lemma PlantFinishes(db: Db, cmd: Command, now: Time, eventId: nat)
    requires FirstObjection(db, ONE_SHARD, cmd, now).None? && Apply(Unmarshal(RowOf(db, cmd.farmId).snapshot), cmd, now).Ok?
    requires cmd.kind == Plant && eventId !in db.outbox && SeedAvailable(db.inventory, cmd)
    requires ReceiptKey(cmd.actorUser, cmd.cmdId) !in db.receipts
    ensures FinishFarm(db, ONE_SHARD, cmd, now, eventId).Ok?
  {
  }

  lemma NoObjectionToPlanting(db: Db, clock: Time, cmd: Command)
    requires 1 in db.farms && db.farms[1].routeEpoch == 0 && db.farms[1].version >= 0
    requires cmd == PlantCommand(cmd.plotId, cmd.cmdId, db.farms[1].version)
    ensures FirstObjection(db, ONE_SHARD, cmd, clock).None?
    ensures HasSeeds(db, 1) ==> SeedAvailable(db.inventory, cmd)
  {
    WheatIsKnown();
  }

  lemma PlantCommits(w: World, clock: Time, wheat: map<int, Time>, log: seq<Entry>, used: set<string>, seeds: nat, k: int, id: string)
    requires Stage(w, clock, None, wheat, log, used, seeds, false) && clock > 0 && seeds > 0
    requires 1 <= k <= 12 && k !in wheat && id !in used
    ensures FarmCommits(w, PlantCommand(k, id, |log|), clock, |log|)
    ensures var plots := Unmarshal(w.shards[0].farms[1].snapshot); var r := Apply(plots, PlantCommand(k, id, |log|), clock);
      r.Ok? && r.value.plots == plots[k := Wheat(k, clock)]
  {
    var cmd := PlantCommand(k, id, |log|);
    var db := w.shards[0];
    EmptyFieldIsPlanted(Unmarshal(db.farms[1].snapshot), clock, wheat, k, cmd);
    NoObjectionToPlanting(db, clock, cmd);
    KeysAreFree(w, clock, None, wheat, log, used, seeds, false, id);
    PlantFinishes(db, cmd, clock, |log|);
    AtHome(w, clock, cmd, |log|);
  }

  lemma Planted(w: World, clock: Time, wheat: map<int, Time>, log: seq<Entry>, used: set<string>, seeds: nat, k: int, id: string)
    returns (v: World)
    requires Stage(w, clock, None, wheat, log, used, seeds, false) && clock > 0 && seeds > 0
    requires 1 <= k <= 12 && k !in wheat && id !in used
    ensures Stage(v, clock, None, wheat[k := clock], log + [Entry(PlantCommand(k, id, |log|), clock)], used + {id}, seeds - 1, false)
  {
    PlantCommits(w, clock, wheat, log, used, seeds, k, id);
    var plots := Unmarshal(w.shards[0].farms[1].snapshot)[k := Wheat(k, clock)];
    v := CommitMoves(w, PlantCommand(k, id, |log|), clock, plots);
    StageAfter(w, v, clock, None, wheat, log, used, seeds, false, PlantCommand(k, id, |log|), plots, wheat[k := clock], seeds - 1);
  }

  /** The stage after a move whose plots are the fields told. */
  lemma StageAfter(w: World, v: World, clock: Time, slot: Option<Time>, wheat: map<int, Time>, log: seq<Entry>,
                   used: set<string>, seeds: nat, pet: bool, cmd: Command, plots: Plots, next: map<int, Time>, left: nat)
    requires Stage(w, clock, slot, wheat, log, used, seeds, pet) && Moved(w, v, cmd, clock, plots) && Fields(plots, next)
    requires left == (if cmd.kind == Plant then seeds - 1 else seeds) && seeds > 0
    ensures Stage(v, clock, if cmd.kind == PetAutoHarvest then Some(SlotAfter(clock)) else slot, next,
                  log + [Entry(cmd, clock)], used + {cmd.cmdId}, left, pet)
  {
    assert HasSeeds(w.shards[0], seeds);
  }

  predicate RipeFirst(wheat: map<int, Time>, k: int, clock: Time) {
    && k in wheat && 1 <= k <= 12
    && (forall q :: q in wheat ==> 0 < wheat[q] && wheat[q] + 3 * MINUTE <= clock && k <= q)
  }

  lemma FirstRipeFieldIsHarvested(plots: Plots, clock: Time, wheat: map<int, Time>, k: int, cmd: Command)
    requires Fields(plots, wheat) && RipeFirst(wheat, k, clock)
    requires cmd.kind == PetAutoHarvest && cmd.plotId == k && cmd.actorUser == 1
    ensures SmallestMature(plots, k, clock)
    ensures var r := Apply(plots, cmd, clock); r.Ok? && r.value.plots == plots[k := ZERO_PLOT.(plotId := k, status := Empty)]
  {
    assert forall q :: q in plots && MatureAt(plots, q, clock) ==> q in wheat;
  }

  lemma HarvestFinishes(db: Db, cmd: Command, now: Time, eventId: nat)
    requires FirstObjection(db, ONE_SHARD, cmd, now).None? && Apply(Unmarshal(RowOf(db, cmd.farmId).snapshot), cmd, now).Ok?
    requires cmd.kind == PetAutoHarvest && eventId !in db.outbox && SlotMatches(db.farms, cmd)
    requires ReceiptKey(cmd.actorUser, cmd.cmdId) !in db.receipts
    ensures FinishFarm(db, ONE_SHARD, cmd, now, eventId).Ok?
  {
  }

  lemma NoObjectionToThePet(db: Db, clock: Time, slot: Time, cmd: Command)
    requires 1 in db.farms && db.farms[1].ownerId == 1 && db.farms[1].routeEpoch == 0
    requires db.farms[1].nextPetAt == Some(slot) && 0 < slot <= clock
    requires 1 in db.pets && db.pets[1] == Pet(true, true)
    requires cmd == HarvestCommand(cmd.plotId, cmd.cmdId, slot)
    ensures FirstObjection(db, ONE_SHARD, cmd, clock).None?
  {
  }

  lemma HarvestCommits(w: World, clock: Time, slot: Time, wheat: map<int, Time>, log: seq<Entry>, used: set<string>, seeds: nat, k: int, id: string)
    requires Stage(w, clock, Some(slot), wheat, log, used, seeds, true) && 0 < slot <= clock && id !in used
    requires RipeFirst(wheat, k, clock)
    ensures FarmCommits(w, HarvestCommand(k, id, slot), clock, |log|)
    ensures var plots := Unmarshal(w.shards[0].farms[1].snapshot); var r := Apply(plots, HarvestCommand(k, id, slot), clock);
      r.Ok? && r.value.plots == plots[k := ZERO_PLOT.(plotId := k, status := Empty)]
  {
    var cmd := HarvestCommand(k, id, slot);
    var db := w.shards[0];
    FirstRipeFieldIsHarvested(Unmarshal(db.farms[1].snapshot), clock, wheat, k, cmd);
    NoObjectionToThePet(db, clock, slot, cmd);
    KeysAreFree(w, clock, Some(slot), wheat, log, used, seeds, true, id);
    HarvestFinishes(db, cmd, clock, |log|);
    AtHome(w, clock, cmd, |log|);
  }

  lemma Harvested(w: World, clock: Time, slot: Time, wheat: map<int, Time>, log: seq<Entry>, used: set<string>, seeds: nat, k: int, id: string)
    returns (v: World)
    requires Stage(w, clock, Some(slot), wheat, log, used, seeds, true) && 0 < slot <= clock && id !in used && seeds > 0
    requires RipeFirst(wheat, k, clock)
    ensures Stage(v, clock, Some(SlotAfter(clock)), wheat - {k}, log + [Entry(HarvestCommand(k, id, slot), clock)], used + {id}, seeds, true)
  {
    HarvestCommits(w, clock, slot, wheat, log, used, seeds, k, id);
    var plots := Unmarshal(w.shards[0].farms[1].snapshot)[k := ZERO_PLOT.(plotId := k, status := Empty)];
    v := CommitMoves(w, HarvestCommand(k, id, slot), clock, plots);
    StageAfter(w, v, clock, Some(slot), wheat, log, used, seeds, true, HarvestCommand(k, id, slot), plots, wheat - {k}, seeds);
  }

  // ---- The run ----

  const FIRST: Time := SECOND + 3 * MINUTE + 400_000
  const SLOT_AFTER_FIRST: Time := SECOND + 3 * MINUTE + 30 * SECOND

  lemma OneField() returns (w: World, log: seq<Entry>)
    ensures |log| == 1 && Stage(w, SECOND, None, map[1 := SECOND], log, {"a"}, 4, false)
  {
    w := Opened();
    w := Ticked(w, 0, SECOND, None, map[], [], {}, 5, false);
    w := Planted(w, SECOND, map[], [], {}, 5, 1, "a");
    log := [] + [Entry(PlantCommand(1, "a", 0), SECOND)];
    assert map[][1 := SECOND] == map[1 := SECOND] && {} + {"a"} == {"a"};
  }

  /** Two wheat fields planted at one second, and a pet bought then. */
  lemma TwoFieldsAndAPet() returns (w: World, log: seq<Entry>)
    ensures |log| == 2 && Stage(w, SECOND, Some(SlotAfter(SECOND)), map[1 := SECOND, 2 := SECOND], log, {"a", "b"}, 3, true)
  {
    var u, one := OneField();
    u := Planted(u, SECOND, map[1 := SECOND], one, {"a"}, 4, 2, "b");
    log := one + [Entry(PlantCommand(2, "b", 1), SECOND)];
    assert map[1 := SECOND][2 := SECOND] == map[1 := SECOND, 2 := SECOND] && {"a"} + {"b"} == {"a", "b"};
    w := Bought(u, SECOND, map[1 := SECOND, 2 := SECOND], log, {"a", "b"}, 3);
  }

  lemma SlotsOfTheRun()
    ensures SlotAfter(SECOND) == 31 * SECOND && SlotAfter(FIRST) == SLOT_AFTER_FIRST && RoundsDown(FIRST)
  {
  }

  lemma AfterThreeMinutes() returns (w: World, log: seq<Entry>)
    ensures |log| == 2 && Stage(w, FIRST, Some(31 * SECOND), map[1 := SECOND, 2 := SECOND], log, {"a", "b"}, 3, true)
  {
    var u;
    u, log := TwoFieldsAndAPet();
    SlotsOfTheRun();
    w := Ticked(u, SECOND, FIRST, Some(31 * SECOND), map[1 := SECOND, 2 := SECOND], log, {"a", "b"}, 3, true);
  }

  lemma FieldsOfTheRun()
    ensures map[1 := SECOND, 2 := SECOND] - {1} == map[2 := SECOND] && {"a", "b"} + {"c"} == {"a", "b", "c"}
  {
  }

  /** The pet harvests the first field at a time that the column rounds down. */
  lemma FirstHarvest() returns (w: World, log: seq<Entry>)
    ensures |log| == 3 && IsPet(log[2]) && log[2].now == FIRST
    ensures Stage(w, FIRST, Some(SLOT_AFTER_FIRST), map[2 := SECOND], log, {"a", "b", "c"}, 3, true)
  {
    var u, two := AfterThreeMinutes();
    log := two + [Entry(HarvestCommand(1, "c", 31 * SECOND), FIRST)];
    w := Harvested(u, FIRST, 31 * SECOND, map[1 := SECOND, 2 := SECOND], two, {"a", "b"}, 3, 1, "c");
    SlotsOfTheRun();
    FieldsOfTheRun();
  }

  /**
   * A reachable log in which two pet harvests lie four hundred microseconds short of half a minute apart:
   * the first at a time that the column rounds down, the second as soon as the rounded slot opens.
   */
  lemma PetHarvestsCanBeTooClose() returns (w: World)
    ensures Shape(w) && Reachable(w)
    ensures var log := LogOf(w, 1);
      |log| == 4 && IsPet(log[2]) && IsPet(log[3]) && log[3].now - log[2].now == PET_INTERVAL - 400_000
  {
    var u, three := FirstHarvest();
    u := Ticked(u, FIRST, SLOT_AFTER_FIRST, Some(SLOT_AFTER_FIRST), map[2 := SECOND], three, {"a", "b", "c"}, 3, true);
    w := Harvested(u, SLOT_AFTER_FIRST, SLOT_AFTER_FIRST, map[2 := SECOND], three, {"a", "b", "c"}, 3, 2, "d");
  }
}
