/**
 * Every shard's tables together, with the broker, the relays' memory and the pet scanners' jobs: one
 * step is one database transaction or one effect outside it, and any step may come at any time.
 */
module Cluster {
  import opened Prelude
  import opened FarmDomain
  import opened FarmRules
  import opened FarmTables
  import Outbox

  /** A claimed farm as a scanner remembers it after its claim transaction. */
  datatype Job = Job(farmId: int, expected: Time, claimedAt: Time)

  datatype World = World(
    wiring: Wiring,
    shards: seq<Db>,
    broker: set<(nat, Payload)>,
    memory: seq<Outbox.RelayMemory<Payload>>,
    jobs: map<nat, Job>,
    clock: Time,
    /** History: committed commands per farm, events ever committed per shard, replies given. */
    logs: map<int, seq<Entry>>,
    events: seq<map<nat, Payload>>,
    farmReplies: set<(nat, ReceiptKey, int)>,
    economyReplies: set<(nat, LedgerKey, int)>,
    /** History: per shard, the coins each user was given by mails and task rewards, which write no ledger row. */
    credits: seq<map<int, int>>)

  datatype Step =
    | CreateAccount(user: int)
    | Tick(to: Time)
    | AskFarm(cmd: Command)
    | CommitFarm(cmd: Command, at: Time, eventId: nat)
    | AskEconomy(cmd: Command)
    | CommitEconomy(cmd: Command, eventId: nat)
    | Advance(farmId: int, epoch: int)
    | ReapReceipts(shard: nat, keys: set<ReceiptKey>)
    | Relay(shard: nat, relayStep: Outbox.BusStep<Payload>)
    | DeliverStolen(eventId: nat, payload: Payload)
    | MailItem(user: int, kind: ItemKind, itemId: int, quantity: int)
    | CreditCoins(user: int, amount: nat)
    | SetFriends(shard: nat, friendships: set<(int, int)>, activeEdges: set<(int, int)>)
    | BuyPet(user: int, at: Time, jitter: nat)
    | SetAutoHarvest(user: int, enabled: bool, jitter: nat)
    | ClaimPet(farmId: int, token: nat, at: Time, ttl: Time)
    | RenewLease(token: nat, at: Time, ttl: Time)
    | PushPet(token: nat, at: Time)

  const INIT_PLOTS: Plots := map k: int | 1 <= k <= 12 :: ZERO_PLOT.(plotId := k, status := Empty)
  const INIT_COINS := 1000
  const INIT_SEEDS := 5

  function Start(wiring: Wiring): World
    requires wiring.shardCount > 0
  {
    var n := wiring.shardCount;
    World(wiring, seq(n, i => Db(map[], map[], map[], map[], map[], map[], 0, {}, {}, map[])), {},
          seq(n, i => Outbox.RelayMemory({}, {})), map[], 0, map[], seq(n, i => map[]), {}, {}, seq(n, i => map[]))
  }

  /** What holds of the routing alone: every farm row sits on its own shard and belongs to its user. */
  ghost predicate Shape(w: World) {
    && w.wiring.shardCount > 0
    && |w.shards| == |w.memory| == |w.events| == |w.credits| == w.wiring.shardCount
    && (forall i {:trigger w.shards[i]} :: 0 <= i < |w.shards| ==> RowsAtHome(w.shards[i].farms, i, w.wiring.shardCount))
  }

  predicate RowsAtHome(farms: map<int, FarmRow>, i: nat, shardCount: nat)
    requires shardCount > 0
  {
    forall f :: f in farms ==> f > 0 && i == ShardOf(f, shardCount) && farms[f].ownerId == f
  }

  function Home(w: World, user: int): (i: nat)
    requires w.wiring.shardCount > 0
    ensures i < w.wiring.shardCount
  {
    ShardOf(user, w.wiring.shardCount)
  }

  function LogOf(w: World, f: int): seq<Entry> { if f in w.logs then w.logs[f] else [] }

  predicate FreshEvent(w: World, eventId: nat) { forall i :: 0 <= i < |w.events| ==> eventId !in w.events[i] }

  predicate HasFarm(w: World, f: int)
    requires Shape(w)
  {
    f in w.shards[Home(w, f)].farms
  }

  function Put(w: World, i: nat, db: Db): World
    requires i < |w.shards|
  {
    w.(shards := w.shards[i := db])
  }

  // ---- The steps ----

  function AfterCreateAccount(w: World, user: int): World
    requires Shape(w)
  {
    var i := Home(w, user);
    var db := w.shards[i];
    var seeds := InventoryKey(user, SeedItem, 1);
    if user <= 0 || user in db.farms || user in db.wallets || seeds in db.inventory || user in w.logs then w
    else
      Put(w, i, db.(
        farms := db.farms[user := FarmRow(user, 0, Marshal(INIT_PLOTS), 0, None, None)],
        wallets := db.wallets[user := INIT_COINS],
        inventory := db.inventory[seeds := INIT_SEEDS]))
  }

  function AfterAskFarm(w: World, cmd: Command): World
    requires Shape(w)
  {
    var i := Home(w, cmd.farmId);
    var hit := ReceiptHit(w.shards[i], cmd);
    if hit.None? then w
    else w.(farmReplies := w.farmReplies + {(i, ReceiptKey(cmd.actorUser, cmd.cmdId), hit.value.newVersion)})
  }

  /** The locked part of an attempt, whatever its earlier receipt lookup saw. */
  ghost predicate FarmCommits(w: World, cmd: Command, at: Time, eventId: nat)
    requires Shape(w)
  {
    && !Economic(cmd.kind)
    && HasFarm(w, cmd.farmId)
    && 0 < at <= w.clock
    && FreshEvent(w, eventId)
    && FinishFarm(w.shards[Home(w, cmd.farmId)], w.wiring, cmd, at, eventId).Ok?
  }

  ghost function AfterCommitFarm(w: World, cmd: Command, at: Time, eventId: nat): World
    requires Shape(w)
  {
    if !FarmCommits(w, cmd, at, eventId) then w
    else
      var i := Home(w, cmd.farmId);
      var done := FinishFarm(w.shards[i], w.wiring, cmd, at, eventId).value;
      var replies := if RequiresReceipt(cmd.kind)
                     then {(i, ReceiptKey(cmd.actorUser, cmd.cmdId), done.result.newVersion)} else {};
      Put(w, i, done.db).(
        logs := w.logs[cmd.farmId := LogOf(w, cmd.farmId) + [Entry(cmd, at)]],
        events := w.events[i := w.events[i][eventId := done.db.outbox[eventId].payload]],
        farmReplies := w.farmReplies + replies)
  }

  function AfterAskEconomy(w: World, cmd: Command): World
    requires Shape(w)
  {
    var i := Home(w, cmd.farmId);
    if !Economic(cmd.kind) || !QuantityAllowed(cmd.quantity) then w
    else
      var hit := LedgerHit(w.shards[i], cmd);
      if hit.None? then w
      else w.(economyReplies := w.economyReplies + {(i, EconomyKey(cmd), hit.value.coinBalance)})
  }

  predicate EconomyCommits(w: World, cmd: Command, eventId: nat)
    requires Shape(w)
  {
    && Economic(cmd.kind)
    && QuantityAllowed(cmd.quantity)
    && FinishEconomic(w.shards[Home(w, cmd.farmId)], cmd, eventId).Ok?
  }

  function AfterCommitEconomy(w: World, cmd: Command, eventId: nat): World
    requires Shape(w)
  {
    if !EconomyCommits(w, cmd, eventId) then w
    else
      var i := Home(w, cmd.farmId);
      var done := FinishEconomic(w.shards[i], cmd, eventId).value;
      Put(w, i, done.db).(
        economyReplies := w.economyReplies + {(i, EconomyKey(cmd), done.result.coinBalance)})
  }

  function AfterAdvance(w: World, farmId: int, epoch: int): World
    requires Shape(w)
  {
    var i := Home(w, farmId);
    var r := FinishAdvance(w.shards[i], farmId, epoch);
    if r.Err? then w else Put(w, i, r.value)
  }

  function AfterReapReceipts(w: World, shard: nat, keys: set<ReceiptKey>): World
    requires Shape(w)
  {
    if shard >= |w.shards| then w
    else Put(w, shard, w.shards[shard].(receipts := w.shards[shard].receipts - keys))
  }

  ghost function BusOf(w: World, shard: nat): Outbox.Bus<Payload>
    requires Shape(w) && shard < |w.shards|
  {
    Outbox.Bus(w.shards[shard].outbox, w.broker, w.memory[shard])
  }

  ghost function AfterRelay(w: World, shard: nat, s: Outbox.BusStep<Payload>): World
    requires Shape(w)
  {
    if shard >= |w.shards| || s.Insert? then w
    else
      var b := Outbox.BusNext(BusOf(w, shard), s);
      Put(w, shard, w.shards[shard].(outbox := b.table)).(broker := b.broker, memory := w.memory[shard := b.memory])
  }

  /** The projector credits a theft only across shards and only from a well-formed payload. */
  predicate Creditable(w: World, p: Payload) {
    && p.Stolen? && p.ownerId > 0 && p.actorId > 0 && p.actorId != p.ownerId
    && p.stolenAmount > 0 && p.cropId != ""
    && w.wiring.shardCount > 0
    && ShardOf(p.ownerId, w.wiring.shardCount) != ShardOf(p.actorId, w.wiring.shardCount)
  }

  function AfterDeliverStolen(w: World, eventId: nat, p: Payload): World
    requires Shape(w)
  {
    if (eventId, p) !in w.broker || !Creditable(w, p) then w
    else
      var j := Home(w, p.actorId);
      Put(w, j, FinishCredit(w.shards[j], p.actorId, p.cropId, p.stolenAmount, eventId))
  }

  function AfterMailItem(w: World, user: int, kind: ItemKind, itemId: int, quantity: int): World
    requires Shape(w)
  {
    var i := Home(w, user);
    var db := w.shards[i];
    if user !in db.wallets || quantity <= 0 then w
    else Put(w, i, db.(inventory := AddItem(db.inventory, InventoryKey(user, kind, itemId), quantity)))
  }

  function CreditedTo(credits: map<int, int>, user: int): int { if user in credits then credits[user] else 0 }

  /**
   * Coins attached to a mail, or rewarded for a task: added to the wallet in one statement, with no ledger
   * row. Without a wallet the statement touches nothing; a sum beyond the column's type is refused.
   */
  function AfterCreditCoins(w: World, user: int, amount: nat): World
    requires Shape(w)
  {
    var i := Home(w, user);
    var db := w.shards[i];
    if user !in db.wallets || db.wallets[user] + amount > MAX_INT64 then w
    else
      Put(w, i, db.(wallets := db.wallets[user := db.wallets[user] + amount])).(
        credits := w.credits[i := w.credits[i][user := CreditedTo(w.credits[i], user) + amount]])
  }

  /** Friendships come and go by transactions of another service. */
  function AfterSetFriends(w: World, shard: nat, friendships: set<(int, int)>, edges: set<(int, int)>): World
    requires Shape(w)
  {
    if shard >= |w.shards| then w
    else Put(w, shard, w.shards[shard].(friendships := friendships, activeEdges := edges))
  }

  function AfterBuyPet(w: World, user: int, at: Time, jitter: nat): World
    requires Shape(w)
  {
    var i := Home(w, user);
    var r := FinishBuyPet(w.shards[i], user, at, jitter);
    if jitter > 3 || !(0 < at <= w.clock) || r.Err? then w else Put(w, i, r.value)
  }

  /** The switch reads its clock after it has locked the farm. */
  function AfterSetAutoHarvest(w: World, user: int, enabled: bool, jitter: nat): World
    requires Shape(w)
  {
    var i := Home(w, user);
    var r := FinishSetAutoHarvest(w.shards[i], user, enabled, w.clock, jitter);
    if jitter > 3 || r.Err? then w else Put(w, i, r.value)
  }

  /** One farm of a scanner's claim transaction. */
  function AfterClaimPet(w: World, farmId: int, token: nat, at: Time, ttl: Time): World
    requires Shape(w)
  {
    var i := Home(w, farmId);
    var db := w.shards[i];
    if !Claimable(db, farmId, at) || at > w.clock || token in w.jobs then w
    else
      Put(w, i, Leased(db, farmId, token, at + ttl)).(
        jobs := w.jobs[token := Job(farmId, db.farms[farmId].nextPetAt.value, at)])
  }

  /** A scanner acts on a job no earlier than it claimed it. */
  predicate JobRuns(w: World, token: nat, at: Time) { token in w.jobs && w.jobs[token].claimedAt <= at <= w.clock }

  function AfterRenewLease(w: World, token: nat, at: Time, ttl: Time): World
    requires Shape(w)
  {
    if !JobRuns(w, token, at) then w
    else
      var f := w.jobs[token].farmId;
      Put(w, Home(w, f), FinishRenew(w.shards[Home(w, f)], f, token, at, ttl))
  }

  function AfterPushPet(w: World, token: nat, at: Time): World
    requires Shape(w)
  {
    if !JobRuns(w, token, at) then w
    else
      var f := w.jobs[token].farmId;
      Put(w, Home(w, f), FinishPush(w.shards[Home(w, f)], f, w.jobs[token].expected, token, at))
  }

  ghost function Next(w: World, s: Step): World
    requires Shape(w)
  {
    match s
    case CreateAccount(user) => AfterCreateAccount(w, user)
    case Tick(to) => if to > w.clock then w.(clock := to) else w
    case AskFarm(cmd) => AfterAskFarm(w, cmd)
    case CommitFarm(cmd, at, eventId) => AfterCommitFarm(w, cmd, at, eventId)
    case AskEconomy(cmd) => AfterAskEconomy(w, cmd)
    case CommitEconomy(cmd, eventId) => AfterCommitEconomy(w, cmd, eventId)
    case Advance(f, epoch) => AfterAdvance(w, f, epoch)
    case ReapReceipts(shard, keys) => AfterReapReceipts(w, shard, keys)
    case Relay(shard, step) => AfterRelay(w, shard, step)
    case DeliverStolen(eventId, payload) => AfterDeliverStolen(w, eventId, payload)
    case MailItem(user, kind, itemId, quantity) => AfterMailItem(w, user, kind, itemId, quantity)
    case CreditCoins(user, amount) => AfterCreditCoins(w, user, amount)
    case SetFriends(shard, friendships, edges) => AfterSetFriends(w, shard, friendships, edges)
    case BuyPet(user, at, jitter) => AfterBuyPet(w, user, at, jitter)
    case SetAutoHarvest(user, enabled, jitter) => AfterSetAutoHarvest(w, user, enabled, jitter)
    case ClaimPet(f, token, at, ttl) => AfterClaimPet(w, f, token, at, ttl)
    case RenewLease(token, at, ttl) => AfterRenewLease(w, token, at, ttl)
    case PushPet(token, at) => AfterPushPet(w, token, at)
  }

  // ---- The shape of a committed farm command ----

  /** The farm row a committed command leaves behind. */
  function RowAfter(row: FarmRow, cmd: Command, plots: Plots, at: Time): FarmRow {
    var written := row.(version := row.version + 1, snapshot := Marshal(plots));
    if cmd.kind == PetAutoHarvest
    then written.(nextPetAt := Some(StoreMillis(at + PET_INTERVAL)), lease := None) else written
  }

  /** What the locked part of a farm command did, column by column, when it committed. */
  ghost predicate FarmCommitEffect(db: Db, w: Wiring, cmd: Command, at: Time, eventId: nat, done: Committed) {
    var row := RowOf(db, cmd.farmId);
    var applied := Apply(Unmarshal(row.snapshot), cmd, at);
    && applied.Ok?
    && (cmd.kind == PetAutoHarvest ==> row.nextPetAt == Some(cmd.petScheduledAt))
    && done.db.farms == db.farms[cmd.farmId := RowAfter(row, cmd, applied.value.plots, at)]
    && done.db.wallets == db.wallets && done.db.ledger == db.ledger && done.db.pets == db.pets
    && done.db.receipts == (if RequiresReceipt(cmd.kind)
         then db.receipts[ReceiptKey(cmd.actorUser, cmd.cmdId) := row.version + 1] else db.receipts)
    && (RequiresReceipt(cmd.kind) ==> ReceiptKey(cmd.actorUser, cmd.cmdId) !in db.receipts)
    && eventId !in db.outbox
    && done.db.outbox == db.outbox[eventId := Outbox.NewRow(db.nextOutboxId,
         BuildPayload(cmd, applied.value.result, row.ownerId, row.version + 1, at), at)]
    && done.result == CommitResult(row.version + 1, Some(applied.value.result.changedPlot), Some(eventId), false, 0)
    && done.db.inventory == InventoryAfter(db.inventory, w, cmd, applied.value.result, row.ownerId)
    && SeedAvailable(db.inventory, cmd)
  }

  lemma FarmCommitHasEffect(db: Db, w: Wiring, cmd: Command, at: Time, eventId: nat)
    requires FinishFarm(db, w, cmd, at, eventId).Ok?
    ensures FirstObjection(db, w, cmd, at).None?
    ensures FarmCommitEffect(db, w, cmd, at, eventId, FinishFarm(db, w, cmd, at, eventId).value)
  {
    var row := RowOf(db, cmd.farmId);
    var applied := Apply(Unmarshal(row.snapshot), cmd, at);
    assert applied.Ok?;
    PaidThenWritten(db, w, cmd, applied.value, at, eventId);
  }

  lemma PaidThenWritten(db: Db, w: Wiring, cmd: Command, applied: Applied, at: Time, eventId: nat)
    requires SideEffects(db, w, cmd, applied.result, RowOf(db, cmd.farmId).ownerId, at).Ok?
    requires WriteOut(SideEffects(db, w, cmd, applied.result, RowOf(db, cmd.farmId).ownerId, at).value,
                      RowOf(db, cmd.farmId), cmd, applied, at, eventId).Ok?
    ensures var row := RowOf(db, cmd.farmId);
      var done := WriteOut(SideEffects(db, w, cmd, applied.result, row.ownerId, at).value, row, cmd, applied, at, eventId).value;
      && (cmd.kind == PetAutoHarvest ==> row.nextPetAt == Some(cmd.petScheduledAt))
      && done.db.farms == db.farms[cmd.farmId := RowAfter(row, cmd, applied.plots, at)]
      && done.db.inventory == InventoryAfter(db.inventory, w, cmd, applied.result, row.ownerId)
      && SeedAvailable(db.inventory, cmd)
  {
  }

  lemma PutKeepsShape(w: World, i: nat, db: Db)
    requires Shape(w) && i < |w.shards|
    requires RowsAtHome(db.farms, i, w.wiring.shardCount)
    ensures Shape(Put(w, i, db))
  {
  }

  /** A committed farm command, seen from the whole cluster. */
  ghost predicate FarmCommitted(w: World, v: World, cmd: Command, at: Time, eventId: nat, done: Committed) {
    && Shape(w)
    && !Economic(cmd.kind) && HasFarm(w, cmd.farmId) && 0 < at <= w.clock && FreshEvent(w, eventId)
    && (var i := Home(w, cmd.farmId);
        && FirstObjection(w.shards[i], w.wiring, cmd, at).None?
        && FarmCommitEffect(w.shards[i], w.wiring, cmd, at, eventId, done)
        && v.shards == w.shards[i := done.db]
        && v.logs == w.logs[cmd.farmId := LogOf(w, cmd.farmId) + [Entry(cmd, at)]]
        && v.events == w.events[i := w.events[i][eventId := done.db.outbox[eventId].payload]]
        && v.farmReplies == w.farmReplies + (if RequiresReceipt(cmd.kind)
             then {(i, ReceiptKey(cmd.actorUser, cmd.cmdId), done.result.newVersion)} else {}))
    && v.wiring == w.wiring && v.memory == w.memory && v.broker == w.broker && v.clock == w.clock && v.jobs == w.jobs
    && v.economyReplies == w.economyReplies && v.credits == w.credits
  }

  lemma CommitFarmCommits(w: World, cmd: Command, at: Time, eventId: nat) returns (done: Committed)
    requires Shape(w) && FarmCommits(w, cmd, at, eventId)
    ensures FarmCommitted(w, AfterCommitFarm(w, cmd, at, eventId), cmd, at, eventId, done)
  {
    var i := Home(w, cmd.farmId);
    done := FinishFarm(w.shards[i], w.wiring, cmd, at, eventId).value;
    FarmCommitHasEffect(w.shards[i], w.wiring, cmd, at, eventId);
  }

  lemma FarmCommittedKeepsShape(w: World, v: World, cmd: Command, at: Time, eventId: nat, done: Committed)
    requires FarmCommitted(w, v, cmd, at, eventId, done)
    ensures Shape(v)
  {
    var i := Home(w, cmd.farmId);
    assert RowsAtHome(w.shards[i].farms, i, w.wiring.shardCount);
    assert RowsAtHome(done.db.farms, i, w.wiring.shardCount);
  }

  // ---- Steps that write no farm history ----

  predicate QuietRow(row: FarmRow, row': FarmRow) {
    && row'.version == row.version && row'.snapshot == row.snapshot && row'.routeEpoch >= row.routeEpoch
    && row'.ownerId == row.ownerId
  }

  ghost predicate QuietDb(db: Db, db': Db) {
    && db'.farms.Keys == db.farms.Keys
    && (forall f :: f in db.farms ==> QuietRow(db.farms[f], db'.farms[f]))
    && (forall key :: key in db'.receipts ==> key in db.receipts && db'.receipts[key] == db.receipts[key])
  }

  /** Shard i alone changed; its farm rows kept version and plots, and no receipt or reply appeared. */
  ghost predicate Quiet(w: World, v: World, i: nat) {
    && i < |w.shards|
    && |v.shards| == |w.shards| && v.shards == w.shards[i := v.shards[i]]
    && QuietDb(w.shards[i], v.shards[i])
    && v.wiring == w.wiring && |v.memory| == |w.memory| && |v.credits| == |w.credits| && v.clock >= w.clock
    && v.logs == w.logs && v.events == w.events && v.farmReplies == w.farmReplies
  }

  /** Which shard a step writes to. */
  function Touched(w: World, s: Step): (i: nat)
    requires Shape(w)
    ensures i < |w.shards|
  {
    match s
    case CreateAccount(user) => Home(w, user)
    case Tick(_) => 0
    case AskFarm(cmd) => Home(w, cmd.farmId)
    case CommitFarm(cmd, _, _) => Home(w, cmd.farmId)
    case AskEconomy(cmd) => Home(w, cmd.farmId)
    case CommitEconomy(cmd, _) => Home(w, cmd.farmId)
    case Advance(f, _) => Home(w, f)
    case ReapReceipts(shard, _) => if shard < |w.shards| then shard else 0
    case Relay(shard, _) => if shard < |w.shards| then shard else 0
    case DeliverStolen(_, p) => Home(w, p.actorId)
    case MailItem(user, _, _, _) => Home(w, user)
    case CreditCoins(user, _) => Home(w, user)
    case SetFriends(shard, _, _) => if shard < |w.shards| then shard else 0
    case BuyPet(user, _, _) => Home(w, user)
    case SetAutoHarvest(user, _, _) => Home(w, user)
    case ClaimPet(f, _, _, _) => Home(w, f)
    case RenewLease(token, _, _) => if token in w.jobs then Home(w, w.jobs[token].farmId) else 0
    case PushPet(token, _) => if token in w.jobs then Home(w, w.jobs[token].farmId) else 0
  }

  predicate WritesHistory(s: Step) { s.CommitFarm? || s.CreateAccount? || s.AskFarm? }

  lemma CommitEconomyIsQuiet(w: World, cmd: Command, eventId: nat)
    requires Shape(w)
    ensures Quiet(w, AfterCommitEconomy(w, cmd, eventId), Home(w, cmd.farmId))
  {
    if EconomyCommits(w, cmd, eventId) {
      PostedFrame(w.shards[Home(w, cmd.farmId)], cmd, eventId);
    }
  }

  lemma PostedFrame(db: Db, cmd: Command, eventId: nat)
    requires FinishEconomic(db, cmd, eventId).Ok?
    ensures var db' := FinishEconomic(db, cmd, eventId).value.db;
      db'.farms == db.farms && db'.receipts == db.receipts && db'.outbox == db.outbox && db'.pets == db.pets
  {
  }

  lemma BuyPetIsQuiet(w: World, user: int, at: Time, jitter: nat)
    requires Shape(w)
    ensures Quiet(w, AfterBuyPet(w, user, at, jitter), Home(w, user))
  {
  }

  lemma SetAutoHarvestIsQuiet(w: World, user: int, enabled: bool, jitter: nat)
    requires Shape(w)
    ensures Quiet(w, AfterSetAutoHarvest(w, user, enabled, jitter), Home(w, user))
  {
  }

  lemma ClaimPetIsQuiet(w: World, f: int, token: nat, at: Time, ttl: Time)
    requires Shape(w)
    ensures Quiet(w, AfterClaimPet(w, f, token, at, ttl), Home(w, f))
  {
  }

  lemma RenewLeaseIsQuiet(w: World, token: nat, at: Time, ttl: Time)
    requires Shape(w)
    ensures Quiet(w, AfterRenewLease(w, token, at, ttl), Touched(w, RenewLease(token, at, ttl)))
  {
  }

  lemma PushPetIsQuiet(w: World, token: nat, at: Time)
    requires Shape(w)
    ensures Quiet(w, AfterPushPet(w, token, at), Touched(w, PushPet(token, at)))
  {
  }

  lemma RelayIsQuiet(w: World, shard: nat, step: Outbox.BusStep<Payload>)
    requires Shape(w)
    ensures Quiet(w, AfterRelay(w, shard, step), Touched(w, Relay(shard, step)))
  {
  }

  lemma StepIsQuiet(w: World, s: Step)
    requires Shape(w) && !WritesHistory(s)
    ensures Quiet(w, Next(w, s), Touched(w, s))
  {
    match s
    case CommitEconomy(cmd, eventId) => CommitEconomyIsQuiet(w, cmd, eventId);
    case BuyPet(user, at, jitter) => BuyPetIsQuiet(w, user, at, jitter);
    case SetAutoHarvest(user, enabled, jitter) => SetAutoHarvestIsQuiet(w, user, enabled, jitter);
    case ClaimPet(f, token, at, ttl) => ClaimPetIsQuiet(w, f, token, at, ttl);
    case RenewLease(token, at, ttl) => RenewLeaseIsQuiet(w, token, at, ttl);
    case PushPet(token, at) => PushPetIsQuiet(w, token, at);
    case Relay(shard, step) => RelayIsQuiet(w, shard, step);
    case Advance(f, epoch) => AdvanceIsQuiet(w, f, epoch);
    case DeliverStolen(eventId, p) => DeliverIsQuiet(w, eventId, p);
    case MailItem(user, kind, itemId, quantity) => MailIsQuiet(w, user, kind, itemId, quantity);
    case CreditCoins(user, amount) => CreditIsQuiet(w, user, amount);
    case ReapReceipts(shard, keys) => ReapIsQuiet(w, shard, keys);
    case SetFriends(shard, friendships, edges) => SetFriendsIsQuiet(w, shard, friendships, edges);
    case Tick(to) => TickIsQuiet(w, to);
    case AskEconomy(cmd) => AskEconomyIsQuiet(w, cmd);
  }

  lemma TickIsQuiet(w: World, to: Time)
    requires Shape(w)
    ensures Quiet(w, Next(w, Tick(to)), 0)
  {
  }

  lemma AskEconomyIsQuiet(w: World, cmd: Command)
    requires Shape(w)
    ensures Quiet(w, AfterAskEconomy(w, cmd), Home(w, cmd.farmId))
  {
  }

  lemma AdvanceIsQuiet(w: World, f: int, epoch: int)
    requires Shape(w)
    ensures Quiet(w, AfterAdvance(w, f, epoch), Home(w, f))
  {
  }

  lemma DeliverIsQuiet(w: World, eventId: nat, p: Payload)
    requires Shape(w)
    ensures Quiet(w, AfterDeliverStolen(w, eventId, p), Home(w, p.actorId))
  {
  }

  lemma MailIsQuiet(w: World, user: int, kind: ItemKind, itemId: int, quantity: int)
    requires Shape(w)
    ensures Quiet(w, AfterMailItem(w, user, kind, itemId, quantity), Home(w, user))
  {
  }

  lemma CreditIsQuiet(w: World, user: int, amount: nat)
    requires Shape(w)
    ensures Quiet(w, AfterCreditCoins(w, user, amount), Home(w, user))
  {
  }

  lemma ReapIsQuiet(w: World, shard: nat, keys: set<ReceiptKey>)
    requires Shape(w)
    ensures Quiet(w, AfterReapReceipts(w, shard, keys), Touched(w, ReapReceipts(shard, keys)))
  {
  }

  lemma SetFriendsIsQuiet(w: World, shard: nat, friendships: set<(int, int)>, edges: set<(int, int)>)
    requires Shape(w)
    ensures Quiet(w, AfterSetFriends(w, shard, friendships, edges), Touched(w, SetFriends(shard, friendships, edges)))
  {
  }

  lemma QuietKeepsShape(w: World, v: World, i: nat)
    requires Shape(w) && Quiet(w, v, i)
    ensures Shape(v)
  {
    assert RowsAtHome(w.shards[i].farms, i, w.wiring.shardCount);
    forall f | f in v.shards[i].farms
      ensures f > 0 && i == ShardOf(f, w.wiring.shardCount) && v.shards[i].farms[f].ownerId == f
    {
      assert QuietRow(w.shards[i].farms[f], v.shards[i].farms[f]);
    }
  }

  lemma StepKeepsShape(w: World, s: Step)
    requires Shape(w)
    ensures Shape(Next(w, s))
    ensures Next(w, s).wiring == w.wiring && w.clock <= Next(w, s).clock
  {
    if s.CommitFarm? {
      if FarmCommits(w, s.cmd, s.at, s.eventId) {
        var done := CommitFarmCommits(w, s.cmd, s.at, s.eventId);
        FarmCommittedKeepsShape(w, Next(w, s), s.cmd, s.at, s.eventId, done);
      }
    } else if s.CreateAccount? {
      CreateAccountKeepsShape(w, s.user);
    } else if s.AskFarm? {
    } else {
      StepIsQuiet(w, s);
      QuietKeepsShape(w, Next(w, s), Touched(w, s));
    }
  }

  lemma CreateAccountKeepsShape(w: World, user: int)
    requires Shape(w)
    ensures var v := AfterCreateAccount(w, user); Shape(v) && v.wiring == w.wiring && v.clock == w.clock
  {
  }

  // ---- Runs ----

  ghost function Run(wiring: Wiring, steps: seq<Step>): (w: World)
    requires wiring.shardCount > 0
    ensures Shape(w) && w.wiring == wiring
  {
    if steps == [] then Start(wiring)
    else
      var before := Run(wiring, steps[..|steps| - 1]);
      StepKeepsShape(before, steps[|steps| - 1]);
      Next(before, steps[|steps| - 1])
  }

  lemma RunSnoc(wiring: Wiring, steps: seq<Step>, s: Step)
    requires wiring.shardCount > 0
    ensures Run(wiring, steps + [s]) == Next(Run(wiring, steps), s)
  {
    assert (steps + [s])[..|steps|] == steps;
  }
}
