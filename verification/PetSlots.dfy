/** Pet harvests over every run: each slot pays once, and how far apart two harvests are. */
module PetSlots {
  import opened Prelude
  import opened FarmDomain
  import opened FarmRules
  import opened FarmTables
  import opened Cluster
  import opened FarmLog
  import Outbox
  import PetService

  predicate IsPet(e: Entry) { e.cmd.kind == PetAutoHarvest }

  /** The earliest slot a pet harvest at t leaves behind: the stored column, half a minute on. */
  function SlotAfter(t: Time): Time { StoreMillis(t + PET_INTERVAL) }

  const HALF_MILLISECOND: Time := MILLISECOND / 2

  /** The column cuts off what t has beyond its millisecond. */
  predicate RoundsDown(t: Time) { 0 < t % MILLISECOND < HALF_MILLISECOND }

  lemma QuotientIs(x: Time, q: int)
    requires q * MILLISECOND <= x < q * MILLISECOND + MILLISECOND
    ensures x / MILLISECOND == q && x % MILLISECOND == x - q * MILLISECOND
  {
  }

  /** Rounding cuts off less than half a millisecond, or adds up to half of one. */
  lemma RoundedTo(x: Time)
    ensures StoreMillis(x) == x - x % MILLISECOND + if x % MILLISECOND < HALF_MILLISECOND then 0 else MILLISECOND
  {
    var q, r := x / MILLISECOND, x % MILLISECOND;
    if r < HALF_MILLISECOND {
      QuotientIs(x + HALF_MILLISECOND, q);
    } else {
      QuotientIs(x + HALF_MILLISECOND, q + 1);
    }
  }

  /** The millisecond column can only round down by less than half a millisecond. */
  lemma RoundingIsTight(t: Time)
    ensures t + PET_INTERVAL - HALF_MILLISECOND < SlotAfter(t) <= t + PET_INTERVAL + HALF_MILLISECOND
    ensures SlotAfter(t) < t + PET_INTERVAL <==> RoundsDown(t)
  {
    QuotientIs(t + PET_INTERVAL, t / MILLISECOND + 30_000);
    RoundedTo(t + PET_INTERVAL);
  }

  /** One farm: the stored slot, and the slots its log has used. */
  ghost predicate SlotsSound(row: FarmRow, log: seq<Entry>, clock: Time) {
    && (forall k :: 0 <= k < |log| && IsPet(log[k]) ==>
          log[k].cmd.petScheduledAt <= log[k].now <= clock
          && (row.nextPetAt.Some? ==> SlotAfter(log[k].now) <= row.nextPetAt.value))
    && (forall k, l :: 0 <= k < l < |log| && IsPet(log[k]) && IsPet(log[l]) ==>
          SlotAfter(log[k].now) <= log[l].cmd.petScheduledAt)
  }

  /** A farm whose owner has no pet has no pet harvest behind it. */
  ghost predicate PetFirst(pets: map<int, Pet>, f: int, log: seq<Entry>) {
    f in pets || forall k :: 0 <= k < |log| ==> !IsPet(log[k])
  }

  function LogIn(logs: map<int, seq<Entry>>, f: int): seq<Entry> { if f in logs then logs[f] else [] }

  ghost predicate FarmSlots(db: Db, logs: map<int, seq<Entry>>, clock: Time, f: int)
    requires f in db.farms
  {
    SlotsSound(db.farms[f], LogIn(logs, f), clock) && PetFirst(db.pets, f, LogIn(logs, f))
  }

  ghost predicate ShardSlots(db: Db, logs: map<int, seq<Entry>>, clock: Time) {
    forall f {:trigger FarmSlots(db, logs, clock, f)} :: f in db.farms ==> FarmSlots(db, logs, clock, f)
  }

  ghost predicate PetInvariant(w: World) {
    && LogInvariant(w)
    && (forall i {:trigger w.shards[i]} :: 0 <= i < |w.shards| ==> ShardSlots(w.shards[i], w.logs, w.clock))
    && (forall t :: t in w.jobs ==> w.jobs[t].expected <= w.jobs[t].claimedAt)
  }

  /** A step that moves no slot, gives up no pet and remembers no job. */
  ghost predicate SlotsKept(w: World, v: World, i: nat) {
    && Quiet(w, v, i) && v.jobs == w.jobs
    && (forall p :: p in w.shards[i].pets ==> p in v.shards[i].pets)
    && (forall f :: f in w.shards[i].farms ==> f in v.shards[i].farms && v.shards[i].farms[f].nextPetAt == w.shards[i].farms[f].nextPetAt)
  }

  lemma KeptSlotsStaySound(w: World, v: World, i: nat)
    requires PetInvariant(w) && SlotsKept(w, v, i)
    ensures PetInvariant(v)
  {
    QuietKeepsLog(w, v, i);
    ShardWithKeptSlots(w.shards[i], v.shards[i], w.logs, w.clock, v.clock);
    forall j | 0 <= j < |v.shards| && j != i ensures ShardSlots(v.shards[j], v.logs, v.clock) {
      assert ShardSlots(w.shards[j], w.logs, w.clock) && v.shards[j] == w.shards[j];
      ShardWithKeptSlots(w.shards[j], v.shards[j], w.logs, w.clock, v.clock);
    }
  }

  lemma ShardWithKeptSlots(db: Db, db': Db, logs: map<int, seq<Entry>>, clock: Time, clock': Time)
    requires ShardSlots(db, logs, clock) && clock <= clock' && db'.farms.Keys == db.farms.Keys
    requires forall p :: p in db.pets ==> p in db'.pets
    requires forall f :: f in db.farms ==> db'.farms[f].nextPetAt == db.farms[f].nextPetAt
    ensures ShardSlots(db', logs, clock')
  {
    forall f | f in db'.farms ensures FarmSlots(db', logs, clock', f) { assert FarmSlots(db, logs, clock, f); }
  }

  /** One farm gets a new slot or none, no earlier than every past pet harvest allows. */
  ghost predicate SlotMoved(w: World, v: World, i: nat, f: int, slot: Option<Time>) {
    && Quiet(w, v, i) && v.jobs == w.jobs && f in w.shards[i].farms && f in v.shards[i].farms
    && v.shards[i].farms[f].nextPetAt == slot
    && (forall p :: p in w.shards[i].pets ==> p in v.shards[i].pets)
    && (forall g :: g in w.shards[i].farms && g != f ==> g in v.shards[i].farms && v.shards[i].farms[g].nextPetAt == w.shards[i].farms[g].nextPetAt)
  }

  predicate LateEnough(log: seq<Entry>, slot: Option<Time>) {
    slot.Some? ==> forall k :: 0 <= k < |log| && IsPet(log[k]) ==> SlotAfter(log[k].now) <= slot.value
  }

  lemma MovedSlotStaysSound(w: World, v: World, i: nat, f: int, slot: Option<Time>)
    requires PetInvariant(w) && SlotMoved(w, v, i, f, slot) && LateEnough(LogOf(w, f), slot)
    ensures PetInvariant(v)
  {
    QuietKeepsLog(w, v, i);
    assert ShardSlots(w.shards[i], w.logs, w.clock);
    ShardWithMovedSlot(w.shards[i], v.shards[i], w.logs, w.clock, v.clock, f, slot);
    forall j | 0 <= j < |v.shards| && j != i ensures ShardSlots(v.shards[j], v.logs, v.clock) {
      assert ShardSlots(w.shards[j], w.logs, w.clock) && v.shards[j] == w.shards[j];
      ShardWithKeptSlots(w.shards[j], v.shards[j], w.logs, w.clock, v.clock);
    }
  }

  lemma ShardWithMovedSlot(db: Db, db': Db, logs: map<int, seq<Entry>>, clock: Time, clock': Time, f: int, slot: Option<Time>)
    requires ShardSlots(db, logs, clock) && clock <= clock'
    requires db'.farms.Keys == db.farms.Keys && f in db.farms && db'.farms[f].nextPetAt == slot
    requires LateEnough(LogIn(logs, f), slot)
    requires forall p :: p in db.pets ==> p in db'.pets
    requires forall g :: g in db.farms && g != f ==> db'.farms[g].nextPetAt == db.farms[g].nextPetAt
    ensures ShardSlots(db', logs, clock')
  {
    forall g | g in db'.farms ensures FarmSlots(db', logs, clock', g) { assert FarmSlots(db, logs, clock, g); }
  }

  lemma BuyPetKeepsSlots(w: World, user: int, at: Time, jitter: nat)
    requires PetInvariant(w)
    ensures PetInvariant(AfterBuyPet(w, user, at, jitter))
  {
    var v := AfterBuyPet(w, user, at, jitter);
    if v != w {
      var i := Home(w, user);
      BuyPetIsQuiet(w, user, at, jitter);
      assert FarmSlots(w.shards[i], w.logs, w.clock, user);
      MovedSlotStaysSound(w, v, i, user, Some(StoreMillis(at + PET_INTERVAL + jitter * SECOND)));
    }
  }

  lemma SetAutoHarvestKeepsSlots(w: World, user: int, enabled: bool, jitter: nat)
    requires PetInvariant(w)
    ensures PetInvariant(AfterSetAutoHarvest(w, user, enabled, jitter))
  {
    var v := AfterSetAutoHarvest(w, user, enabled, jitter);
    SwitchMovesSlot(w, user, enabled, jitter);
    if v != w {
      assert FarmSlots(w.shards[Home(w, user)], w.logs, w.clock, user);
      LateClocksAreLateEnough(w.shards[Home(w, user)].farms[user], LogOf(w, user), w.clock, w.clock + jitter * SECOND);
      MovedSlotStaysSound(w, v, Home(w, user), user, SwitchedSlot(w.clock, enabled, jitter));
    }
  }

  function SwitchedSlot(clock: Time, enabled: bool, jitter: nat): Option<Time> {
    if enabled then Some(StoreMillis(clock + jitter * SECOND + PET_INTERVAL)) else None
  }

  /** The switch changes nothing, or moves the slot of its farm. */
  lemma SwitchMovesSlot(w: World, user: int, enabled: bool, jitter: nat)
    requires Shape(w)
    ensures var v := AfterSetAutoHarvest(w, user, enabled, jitter);
      v == w || SlotMoved(w, v, Home(w, user), user, SwitchedSlot(w.clock, enabled, jitter))
  {
    SetAutoHarvestIsQuiet(w, user, enabled, jitter);
    var i := Home(w, user);
    var r := FinishSetAutoHarvest(w.shards[i], user, enabled, w.clock, jitter);
    if r.Ok? && r.value == w.shards[i] { assert w.shards[i := r.value] == w.shards; }
    assert w.clock + PET_INTERVAL + jitter * SECOND == w.clock + jitter * SECOND + PET_INTERVAL;
  }

  lemma LateClocksAreLateEnough(row: FarmRow, log: seq<Entry>, clock: Time, t: Time)
    requires SlotsSound(row, log, clock) && clock <= t
    ensures LateEnough(log, Some(StoreMillis(t + PET_INTERVAL)))
  {
    forall k | 0 <= k < |log| && IsPet(log[k]) ensures SlotAfter(log[k].now) <= StoreMillis(t + PET_INTERVAL) {
      LaterRoundsLater(log[k].now + PET_INTERVAL, t + PET_INTERVAL);
    }
  }

  lemma LaterRoundsLater(t: Time, u: Time)
    requires t <= u
    ensures StoreMillis(t) <= StoreMillis(u)
  {
  }

  lemma PushPetKeepsSlots(w: World, token: nat, at: Time)
    requires PetInvariant(w)
    ensures PetInvariant(AfterPushPet(w, token, at))
  {
    var v := AfterPushPet(w, token, at);
    if v != w {
      var f := w.jobs[token].farmId;
      var i := Home(w, f);
      PushPetIsQuiet(w, token, at);
      assert FarmSlots(w.shards[i], w.logs, w.clock, f);
      forall k | 0 <= k < |LogOf(w, f)| && IsPet(LogOf(w, f)[k]) ensures SlotAfter(LogOf(w, f)[k].now) <= SlotAfter(at) {
        RoundingIsTight(at);
      }
      MovedSlotStaysSound(w, v, i, f, Some(SlotAfter(at)));
    }
  }

  lemma ClaimPetKeepsSlots(w: World, f: int, token: nat, at: Time, ttl: Time)
    requires PetInvariant(w)
    ensures PetInvariant(AfterClaimPet(w, f, token, at, ttl))
  {
    var v := AfterClaimPet(w, f, token, at, ttl);
    if v != w {
      ClaimPetIsQuiet(w, f, token, at, ttl);
      KeptSlotsStaySound(w, v.(jobs := w.jobs), Home(w, f));
    }
  }

  lemma CommitKeepsSlots(w: World, v: World, cmd: Command, at: Time, eventId: nat, done: Committed)
    requires PetInvariant(w) && FarmCommitted(w, v, cmd, at, eventId, done)
    ensures PetInvariant(v)
  {
    CommitFarmKeepsLog(w, v, cmd, at, eventId, done);
    var i := Home(w, cmd.farmId);
    assert ShardSlots(w.shards[i], w.logs, w.clock);
    CommitKeepsShardSlots(w, v, cmd, at, eventId, done);
    forall j | 0 <= j < |v.shards| && j != i ensures ShardSlots(v.shards[j], v.logs, v.clock) {
      assert RowsAtHome(w.shards[j].farms, j, w.wiring.shardCount);
      forall f | f in v.shards[j].farms ensures FarmSlots(v.shards[j], v.logs, v.clock, f) {
        assert FarmSlots(w.shards[j], w.logs, w.clock, f);
      }
    }
  }

  lemma CommitKeepsShardSlots(w: World, v: World, cmd: Command, at: Time, eventId: nat, done: Committed)
    requires FarmCommitted(w, v, cmd, at, eventId, done) && ShardSlots(w.shards[Home(w, cmd.farmId)], w.logs, w.clock)
    ensures ShardSlots(done.db, v.logs, v.clock)
  {
    var f := cmd.farmId;
    var db := w.shards[Home(w, f)];
    PetCommit(w, v, cmd, at, eventId, done);
    assert FarmSlots(db, w.logs, w.clock, f);
    CommitKeepsFarmSlots(db.farms[f], LogOf(w, f), Entry(cmd, at), done.db.farms[f], w.clock);
    forall g | g in done.db.farms ensures FarmSlots(done.db, v.logs, v.clock, g) {
      assert FarmSlots(db, w.logs, w.clock, g);
    }
  }

  /** What a committed command does to the slot of its farm. */
  lemma PetCommit(w: World, v: World, cmd: Command, at: Time, eventId: nat, done: Committed)
    requires FarmCommitted(w, v, cmd, at, eventId, done)
    ensures var db := w.shards[Home(w, cmd.farmId)]; var f := cmd.farmId;
      && f in db.farms && f in done.db.farms && at <= w.clock && done.db.pets == db.pets
      && (forall g :: g in done.db.farms && g != f ==> g in db.farms && done.db.farms[g] == db.farms[g])
      && (if cmd.kind == PetAutoHarvest
          then f in db.pets && db.farms[f].nextPetAt == Some(cmd.petScheduledAt) && cmd.petScheduledAt <= at
            && done.db.farms[f].nextPetAt == Some(SlotAfter(at))
          else done.db.farms[f].nextPetAt == db.farms[f].nextPetAt)
  {
    assert RowsAtHome(w.shards[Home(w, cmd.farmId)].farms, Home(w, cmd.farmId), w.wiring.shardCount);
  }

  /** A pet harvest spends the stored slot and opens the next; other commands leave the slot alone. */
  lemma CommitKeepsFarmSlots(row: FarmRow, log: seq<Entry>, e: Entry, row': FarmRow, clock: Time)
    requires SlotsSound(row, log, clock) && e.now <= clock
    requires IsPet(e) ==> row.nextPetAt == Some(e.cmd.petScheduledAt) && row.nextPetAt.value <= e.now
                          && row'.nextPetAt == Some(SlotAfter(e.now))
    requires !IsPet(e) ==> row'.nextPetAt == row.nextPetAt
    ensures SlotsSound(row', log + [e], clock)
  {
    if IsPet(e) {
      RoundingIsTight(e.now);
    }
  }

  predicate LeavesSlotsAlone(s: Step) {
    || s.Tick? || s.AskEconomy? || s.CommitEconomy? || s.Advance? || s.ReapReceipts? || s.Relay? || s.DeliverStolen?
    || s.MailItem? || s.CreditCoins? || s.SetFriends? || s.RenewLease?
  }

  lemma SlotFreeStep(w: World, s: Step)
    requires Shape(w) && LeavesSlotsAlone(s)
    ensures SlotsKept(w, Next(w, s), Touched(w, s))
  {
    StepIsQuiet(w, s);
    if s.CommitEconomy? {
      EconomyKeepsSlots(w, s.cmd, s.eventId);
    } else if s.Relay? {
      RelayKeepsSlots(w, s.shard, s.relayStep);
    } else if s.RenewLease? {
      RenewKeepsSlots(w, s.token, s.at, s.ttl);
    }
  }

  lemma EconomyKeepsSlots(w: World, cmd: Command, eventId: nat)
    requires Shape(w)
    ensures SlotsKept(w, AfterCommitEconomy(w, cmd, eventId), Home(w, cmd.farmId))
  {
    CommitEconomyIsQuiet(w, cmd, eventId);
    if EconomyCommits(w, cmd, eventId) {
      PostedFrame(w.shards[Home(w, cmd.farmId)], cmd, eventId);
    }
  }

  lemma RelayKeepsSlots(w: World, shard: nat, s: Outbox.BusStep<Payload>)
    requires Shape(w)
    ensures SlotsKept(w, AfterRelay(w, shard, s), Touched(w, Relay(shard, s)))
  {
    RelayIsQuiet(w, shard, s);
  }

  lemma RenewKeepsSlots(w: World, token: nat, at: Time, ttl: Time)
    requires Shape(w)
    ensures SlotsKept(w, AfterRenewLease(w, token, at, ttl), Touched(w, RenewLease(token, at, ttl)))
  {
    RenewLeaseIsQuiet(w, token, at, ttl);
  }

  lemma CreateAccountKeepsSlots(w: World, user: int)
    requires PetInvariant(w)
    ensures PetInvariant(AfterCreateAccount(w, user))
  {
    var v := AfterCreateAccount(w, user);
    CreateAccountKeepsLog(w, user);
    forall j | 0 <= j < |v.shards| ensures ShardSlots(v.shards[j], v.logs, v.clock) {
      forall f | f in v.shards[j].farms ensures FarmSlots(v.shards[j], v.logs, v.clock, f) {
        if f in w.shards[j].farms { assert FarmSlots(w.shards[j], w.logs, w.clock, f); }
      }
    }
  }

  lemma StepKeepsSlots(w: World, s: Step)
    requires PetInvariant(w)
    ensures PetInvariant(Next(w, s))
  {
    match s
    case CommitFarm(cmd, at, eventId) =>
      if FarmCommits(w, cmd, at, eventId) {
        var done := CommitFarmCommits(w, cmd, at, eventId);
        CommitKeepsSlots(w, Next(w, s), cmd, at, eventId, done);
      }
    case CreateAccount(user) => CreateAccountKeepsSlots(w, user);
    case AskFarm(cmd) =>
      AskFarmKeepsLog(w, cmd);
      forall j | 0 <= j < |w.shards| ensures ShardSlots(w.shards[j], w.logs, w.clock) {}
    case BuyPet(user, at, jitter) => BuyPetKeepsSlots(w, user, at, jitter);
    case SetAutoHarvest(user, enabled, jitter) => SetAutoHarvestKeepsSlots(w, user, enabled, jitter);
    case ClaimPet(f, token, at, ttl) => ClaimPetKeepsSlots(w, f, token, at, ttl);
    case PushPet(token, at) => PushPetKeepsSlots(w, token, at);
    case _ =>
      SlotFreeStep(w, s);
      KeptSlotsStaySound(w, Next(w, s), Touched(w, s));
  }

  lemma {:induction false} RunKeepsSlots(wiring: Wiring, steps: seq<Step>)
    requires wiring.shardCount > 0
    ensures PetInvariant(Run(wiring, steps))
  {
    if steps != [] {
      RunKeepsSlots(wiring, steps[..|steps| - 1]);
      StepKeepsSlots(Run(wiring, steps[..|steps| - 1]), steps[|steps| - 1]);
    }
  }

  /**
   * For any number of scanners, expired leases, retries, reschedules and toggles: the slots spent by a
   * farm's pet harvests strictly increase, so no value of next_pet_action_at pays twice, and no harvest
   * comes before its slot.
   */
  lemma EachSlotPaysOnce(wiring: Wiring, steps: seq<Step>, f: int, k: nat, l: nat)
    requires wiring.shardCount > 0 && HasFarm(Run(wiring, steps), f)
    requires k < l < |LogOf(Run(wiring, steps), f)|
    requires var log := LogOf(Run(wiring, steps), f); IsPet(log[k]) && IsPet(log[l])
    ensures var log := LogOf(Run(wiring, steps), f);
      log[k].cmd.petScheduledAt <= log[k].now < log[l].cmd.petScheduledAt <= log[l].now
  {
    RunKeepsSlots(wiring, steps);
    var w := Run(wiring, steps);
    assert FarmSlots(w.shards[Home(w, f)], w.logs, w.clock, f);
    RoundingIsTight(LogOf(w, f)[k].now);
  }

  /**
   * Two pet harvests of one farm lie half a minute apart, short of it by less than half a millisecond; and
   * a full half minute whenever the column did not round the first one's time down.
   */
  lemma PetHarvestsAreHalfAMinuteApart(wiring: Wiring, steps: seq<Step>, f: int, k: nat, l: nat)
    requires wiring.shardCount > 0 && HasFarm(Run(wiring, steps), f)
    requires k < l < |LogOf(Run(wiring, steps), f)|
    requires var log := LogOf(Run(wiring, steps), f); IsPet(log[k]) && IsPet(log[l])
    ensures var log := LogOf(Run(wiring, steps), f);
      && log[l].now - log[k].now > PET_INTERVAL - HALF_MILLISECOND
      && (!RoundsDown(log[k].now) ==> log[l].now - log[k].now >= PET_INTERVAL)
  {
    RunKeepsSlots(wiring, steps);
    var w := Run(wiring, steps);
    assert FarmSlots(w.shards[Home(w, f)], w.logs, w.clock, f);
    RoundingIsTight(LogOf(w, f)[k].now);
  }

  // ---- Exactly when a pet harvest can follow too early ----

  /** Farm f after a pet harvest at t: its slot as t left it, its pet on, and a proposal the committer has not seen. */
  ghost predicate Awaits(db: Db, cmd: Command, t: Time, eventId: nat) {
    && t > 0 && cmd.kind == PetAutoHarvest && cmd.farmId in db.farms && db.farms[cmd.farmId].nextPetAt == Some(SlotAfter(t))
    && cmd.petScheduledAt == SlotAfter(t) && cmd.routeEpoch == db.farms[cmd.farmId].routeEpoch
    && cmd.actorUser == db.farms[cmd.farmId].ownerId && cmd.actorUser in db.pets && db.pets[cmd.actorUser] == Pet(true, true)
    && ReceiptKey(cmd.actorUser, cmd.cmdId) !in db.receipts && eventId !in db.outbox
  }

  /** Such a proposal commits exactly from its slot on, and only for the smallest mature plot. */
  lemma ProposalCommitsExactly(db: Db, w: Wiring, cmd: Command, t: Time, at: Time, eventId: nat)
    requires Awaits(db, cmd, t, eventId)
    ensures FinishFarm(db, w, cmd, at, eventId).Ok? <==>
      at >= SlotAfter(t) && SmallestMature(Unmarshal(db.farms[cmd.farmId].snapshot), cmd.plotId, at)
  {
    RoundingIsTight(t);
  }

  ghost predicate SomeMature(plots: Plots, now: Time) { exists k :: k in plots && MatureAt(plots, k, now) }

  /** The smallest of the mature plots. */
  lemma SmallestMatureExists(plots: Plots, ids: set<int>, now: Time) returns (k: int)
    requires ids <= plots.Keys && exists q :: q in ids && MatureAt(plots, q, now)
    ensures k in ids && MatureAt(plots, k, now) && forall q :: q in ids && MatureAt(plots, q, now) ==> k <= q
    decreases |ids|
  {
    k :| k in ids && MatureAt(plots, k, now);
    var smaller := set q | q in ids && q < k;
    if exists q :: q in smaller && MatureAt(plots, q, now) {
      assert smaller < ids;
      SubsetHasFewer(smaller, ids);
      k := SmallestMatureExists(plots, smaller, now);
    }
  }

  lemma {:induction false} SubsetHasFewer<T>(a: set<T>, b: set<T>)
    requires a < b
    ensures |a| < |b|
  {
    if a != {} {
      var x :| x in a;
      SubsetHasFewer(a - {x}, b - {x});
    }
  }

  /**
   * After a pet harvest at t some proposal commits less than half a minute later if and only if the column
   * rounded t down and a plot is mature within that half minute.
   */
  lemma EarlyHarvestIsPossibleExactly(db: Db, w: Wiring, cmd: Command, t: Time, eventId: nat)
    requires Awaits(db, cmd, t, eventId)
    ensures (exists k, at :: at < t + PET_INTERVAL && FinishFarm(db, w, cmd.(plotId := k), at, eventId).Ok?)
       <==> RoundsDown(t) && SomeMature(Unmarshal(db.farms[cmd.farmId].snapshot), t + PET_INTERVAL - 1)
  {
    RoundingIsTight(t);
    var plots := Unmarshal(db.farms[cmd.farmId].snapshot);
    var last := t + PET_INTERVAL - 1;
    forall k, at | at < t + PET_INTERVAL && FinishFarm(db, w, cmd.(plotId := k), at, eventId).Ok?
      ensures RoundsDown(t) && SomeMature(plots, last)
    {
      ProposalCommitsExactly(db, w, cmd.(plotId := k), t, at, eventId);
      assert MatureAt(plots, k, at) && MatureAt(plots, k, last);
    }
    if RoundsDown(t) && SomeMature(plots, last) {
      var k := SmallestMatureExists(plots, plots.Keys, last);
      ProposalCommitsExactly(db, w, cmd.(plotId := k), t, last, eventId);
      assert SmallestMature(plots, k, last);
    }
  }

  /**
   * In every reachable state and at every time: the plot the scanner would propose from a farm's stored
   * snapshot is the one the committer would insist on, and neither finds one when the other does not.
   */
  lemma ScannerAndCommitterPickTheSamePlot(wiring: Wiring, steps: seq<Step>, f: int, k: int, now: Time)
    requires wiring.shardCount > 0 && HasFarm(Run(wiring, steps), f)
    ensures var w := Run(wiring, steps); var json := w.shards[Home(w, f)].farms[f].snapshot;
      && (PetService.ScannerMature(json, k, now) <==> MatureAt(Unmarshal(json), k, now))
      && (PetService.SmallestProposal(json, k, now) <==> SmallestMature(Unmarshal(json), k, now))
  {
    FarmIsAReplayableLog(wiring, steps, f);
    var w := Run(wiring, steps);
    var json := w.shards[Home(w, f)].farms[f].snapshot;
    forall q | q in json ensures json[q].status != PlotStatus.Mature {
      assert PlotInvariant(Unmarshal(json)[q]);
    }
    PetService.ScannerAndCommitterAgree(json);
  }
}
