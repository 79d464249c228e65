/** One shard's tables and the specification of each transaction the committer runs on them. */
module FarmTables {
  import opened Prelude
  import opened FarmDomain
  import opened FarmRules
  import Outbox

  datatype ItemKind = SeedItem | CropItem

  datatype InventoryKey = InventoryKey(user: int, kind: ItemKind, itemId: int)

  datatype ReceiptKey = ReceiptKey(user: int, cmdId: string)

  datatype BizType = ShopPurchase | FarmSell | CrossShardSteal

  /** What the ledger is keyed by: the sixteen bytes a command identifier stands for, or an event. */
  datatype BizId = OfCommand(bytes: seq<nat>) | OfEvent(eventId: nat)

  datatype LedgerKey = LedgerKey(user: int, biz: BizType, id: BizId)

  datatype LedgerRow = LedgerRow(balanceBefore: int, balanceDelta: int, balanceAfter: int)

  datatype Payload =
    | Planted(farmId: int, ownerId: int, actorId: int, version: int, plotId: int, cropId: string,
              plantedAt: Time, matureAt: Time, cmdId: string)
    | Harvested(farmId: int, ownerId: int, actorId: int, version: int, plotId: int, cropId: string,
                amount: int, byPet: bool, at: Time, cmdId: string)
    | Watered(farmId: int, ownerId: int, actorId: int, version: int, plotId: int, at: Time, cmdId: string)
    | Stolen(farmId: int, ownerId: int, actorId: int, version: int, plotId: int, cropId: string,
             stolenAmount: int, remainingYield: int, at: Time, cmdId: string)

  datatype Lease = Lease(token: nat, until: Time)

  datatype FarmRow = FarmRow(
    ownerId: int, version: int, snapshot: SnapshotJson, routeEpoch: int,
    nextPetAt: Option<Time>, lease: Option<Lease>)

  datatype Pet = Pet(active: bool, autoHarvest: bool)

  datatype Db = Db(
    farms: map<int, FarmRow>,
    inventory: map<InventoryKey, int>,
    wallets: map<int, int>,
    receipts: map<ReceiptKey, int>,
    ledger: map<LedgerKey, LedgerRow>,
    outbox: Outbox.Table<Payload>,
    nextOutboxId: nat,
    friendships: set<(int, int)>,
    activeEdges: set<(int, int)>,
    pets: map<int, Pet>)

  /** How the process was wired: the number of shards, and whether directed edges are consulted. */
  datatype Wiring = Wiring(shardCount: nat, friendshipEdges: bool)

  function ShardOf(user: int, shardCount: nat): (s: nat)
    requires shardCount > 0
    ensures s < shardCount
  {
    user % shardCount
  }

  /** The decider of the deferred credit: both users are routable and live on different shards. */
  predicate DefersCredit(w: Wiring, owner: int, actor: int) {
    w.shardCount > 0 && owner > 0 && actor > 0 && ShardOf(owner, w.shardCount) != ShardOf(actor, w.shardCount)
  }

  datatype CommitResult = CommitResult(
    newVersion: int, changedPlot: Option<Plot>, eventId: Option<nat>, replayed: bool, coinBalance: int)

  datatype Committed = Committed(db: Db, result: CommitResult)

  // ---- Columns ----

  /** next_pet_action_at is a DATETIME(3): the server rounds to the nearest millisecond. */
  function StoreMillis(t: Time): Time { (t + MILLISECOND / 2) / MILLISECOND * MILLISECOND }

  predicate SameMillis(a: Time, b: Time) { a / MILLISECOND == b / MILLISECOND }

  const MILLISECOND: Time := 1_000_000

  const PET_INTERVAL: Time := 30 * SECOND

  // ---- Inventory statements ----

  function Quantity(inventory: map<InventoryKey, int>, k: InventoryKey): int {
    if k in inventory then inventory[k] else 0
  }

  function AddItem(inventory: map<InventoryKey, int>, k: InventoryKey, delta: int): map<InventoryKey, int> {
    inventory[k := Quantity(inventory, k) + delta]
  }

  predicate CanDeduct(inventory: map<InventoryKey, int>, k: InventoryKey, delta: int) {
    k in inventory && inventory[k] >= delta
  }

  // ---- Farm commands ----

  function RequiresReceipt(kind: CommandType): bool {
    kind == Plant || kind == Harvest || kind == StealCrop || kind == PetAutoHarvest
  }

  function EmptyRow(farmId: int): FarmRow { FarmRow(farmId, 0, map[], 0, None, None) }

  function RowOf(db: Db, farmId: int): FarmRow {
    if farmId in db.farms then db.farms[farmId] else EmptyRow(farmId)
  }

  predicate AreFriends(db: Db, w: Wiring, visitor: int, owner: int) {
    || (w.friendshipEdges && (owner, visitor) in db.activeEdges)
    || (if visitor > owner then (owner, visitor) else (visitor, owner)) in db.friendships
  }

  /** The first check of a locked farm command that fails, in the order the transaction makes them. */
  function FirstObjection(db: Db, w: Wiring, cmd: Command, now: Time): Option<Error> {
    var row := RowOf(db, cmd.farmId);
    if cmd.routeEpoch != row.routeEpoch then Some(RoutingFenced)
    else if cmd.kind == PetAutoHarvest && cmd.actorUser != row.ownerId then Some(NotFarmOwner)
    else if cmd.kind == PetAutoHarvest && cmd.petScheduledAt == 0 then Some(InvalidArgument)
    else if cmd.kind == PetAutoHarvest
         && (row.nextPetAt.None? || !SameMillis(row.nextPetAt.value, cmd.petScheduledAt)) then Some(VersionConflict)
    else if cmd.kind == PetAutoHarvest && now < row.nextPetAt.value then Some(VersionConflict)
    else if cmd.kind != PetAutoHarvest && cmd.baseVersion != row.version then Some(VersionConflict)
    else if cmd.kind == HelpWater || cmd.kind == StealCrop then
      if cmd.actorUser == row.ownerId then Some(NotFarmOwner)
      else if !AreFriends(db, w, cmd.actorUser, row.ownerId) then Some(NotFriend)
      else None
    else if cmd.kind == PetAutoHarvest then
      if row.ownerId !in db.pets || !db.pets[row.ownerId].active then Some(PetNotOwned)
      else if !db.pets[row.ownerId].autoHarvest then Some(PetAutoDisabled)
      else None
    else None
  }

  /** Inventory after a farm command: at most one row moves. */
  function InventoryAfter(inv: map<InventoryKey, int>, w: Wiring, cmd: Command, r: ApplyResult, owner: int): map<InventoryKey, int> {
    if cmd.kind == Plant && GetCropConfig(cmd.cropId).Ok? then
      AddItem(inv, InventoryKey(cmd.actorUser, SeedItem, CropIdToItemId(cmd.cropId)), -1)
    else if (cmd.kind == Harvest || cmd.kind == PetAutoHarvest) && r.harvestedYield > 0 then
      AddItem(inv, InventoryKey(owner, CropItem, CropIdToItemId(r.harvestedCropId)), r.harvestedYield)
    else if cmd.kind == StealCrop && !DefersCredit(w, owner, cmd.actorUser) then
      AddItem(inv, InventoryKey(cmd.actorUser, CropItem, CropIdToItemId(r.harvestedCropId)), r.stolenAmount)
    else inv
  }

  /** A planted crop of the catalogue costs one seed; an unknown crop costs nothing. */
  predicate SeedAvailable(inv: map<InventoryKey, int>, cmd: Command) {
    cmd.kind == Plant && GetCropConfig(cmd.cropId).Ok? ==>
      CanDeduct(inv, InventoryKey(cmd.actorUser, SeedItem, CropIdToItemId(cmd.cropId)), 1)
  }

  /** The compare-and-swap on the schedule column, exact to the last digit stored. */
  predicate SlotMatches(farms: map<int, FarmRow>, cmd: Command) {
    cmd.farmId in farms && farms[cmd.farmId].nextPetAt == Some(cmd.petScheduledAt)
  }

  function Rescheduled(row: FarmRow, now: Time): FarmRow {
    row.(nextPetAt := Some(StoreMillis(now + PET_INTERVAL)), lease := None)
  }

  /** Inventory and pet schedule after a command; the plots themselves are written separately. */
  function SideEffects(db: Db, w: Wiring, cmd: Command, r: ApplyResult, owner: int, now: Time): Result<Db, Error> {
    if !SeedAvailable(db.inventory, cmd) then Err(Insufficient)
    else if cmd.kind == PetAutoHarvest && !SlotMatches(db.farms, cmd) then Err(VersionConflict)
    else
      Ok(db.(inventory := InventoryAfter(db.inventory, w, cmd, r, owner),
             farms := if cmd.kind == PetAutoHarvest
                      then db.farms[cmd.farmId := Rescheduled(db.farms[cmd.farmId], now)] else db.farms))
  }

  function BuildPayload(cmd: Command, r: ApplyResult, owner: int, version: int, now: Time): Payload {
    match r.eventType
    case FarmPlanted =>
      Planted(cmd.farmId, owner, cmd.actorUser, version, r.changedPlot.plotId, r.changedPlot.cropId,
              r.changedPlot.plantedAt, r.changedPlot.matureAt, cmd.cmdId)
    case FarmHarvested =>
      Harvested(cmd.farmId, owner, cmd.actorUser, version, r.changedPlot.plotId, r.harvestedCropId,
                r.harvestedYield, r.byPet, now, cmd.cmdId)
    case FarmWatered =>
      Watered(cmd.farmId, owner, cmd.actorUser, version, r.changedPlot.plotId, now, cmd.cmdId)
    case FarmStolen =>
      Stolen(cmd.farmId, owner, cmd.actorUser, version, r.changedPlot.plotId, r.harvestedCropId,
             r.stolenAmount, r.remainingYield, now, cmd.cmdId)
  }

  /** Snapshot upsert, receipt and outbox row; a key already taken rolls everything back. */
  function WriteOut(tx: Db, row: FarmRow, cmd: Command, applied: Applied, now: Time, eventId: nat): Result<Committed, Error> {
    var version := row.version + 1;
    var key := ReceiptKey(cmd.actorUser, cmd.cmdId);
    if RequiresReceipt(cmd.kind) && key in tx.receipts then Err(DuplicateKey)
    else if eventId in tx.outbox then Err(DuplicateKey)
    else
      var stored := RowOf(tx, cmd.farmId).(version := version, snapshot := Marshal(applied.plots),
                                           routeEpoch := row.routeEpoch);
      var payload := BuildPayload(cmd, applied.result, row.ownerId, version, now);
      Ok(Committed(
        tx.(farms := tx.farms[cmd.farmId := stored],
            receipts := if RequiresReceipt(cmd.kind) then tx.receipts[key := version] else tx.receipts,
            outbox := tx.outbox[eventId := Outbox.NewRow(tx.nextOutboxId, payload, now)],
            nextOutboxId := tx.nextOutboxId + 1),
        CommitResult(version, Some(applied.result.changedPlot), Some(eventId), false, 0)))
  }

  /** The locked part of a farm command: everything after the receipt lookup, up to the commit. */
  ghost function FinishFarm(db: Db, w: Wiring, cmd: Command, now: Time, eventId: nat): Result<Committed, Error> {
    var row := RowOf(db, cmd.farmId);
    var objection := FirstObjection(db, w, cmd, now);
    if objection.Some? then Err(objection.value)
    else
      var applied := Apply(Unmarshal(row.snapshot), cmd, now);
      if applied.Err? then Err(applied.error)
      else
        var r := applied.value.result;
        var paid := SideEffects(db, w, cmd, r, row.ownerId, now);
        if paid.Err? then Err(paid.error)
        else WriteOut(paid.value, row, cmd, applied.value, now, eventId)
  }

  /** The receipt lookup of an asset command: a hit answers without touching anything. */
  function ReceiptHit(db: Db, cmd: Command): Option<CommitResult> {
    var key := ReceiptKey(cmd.actorUser, cmd.cmdId);
    if RequiresReceipt(cmd.kind) && key in db.receipts then Some(CommitResult(db.receipts[key], None, None, true, 0))
    else None
  }

  // ---- Economic commands ----

  predicate Economic(kind: CommandType) { kind == PurchaseSeed || kind == SellCrop }

  function HexDigit(c: char): Option<nat> {
    if '0' <= c <= '9' then Some(c as int - '0' as int)
    else if 'a' <= c <= 'f' then Some(c as int - 'a' as int + 10)
    else if 'A' <= c <= 'F' then Some(c as int - 'A' as int + 10)
    else None
  }

  /** UNHEX: two digits a byte, a leading zero when their number is odd, NULL when one is no digit. */
  function Unhex(s: string): Option<seq<nat>> {
    if s == [] then Some([])
    else
      var high := if |s| == 1 then Some(0) else HexDigit(s[|s| - 2]);
      var low := HexDigit(s[|s| - 1]);
      var front := if |s| == 1 then Some([]) else Unhex(s[..|s| - 2]);
      if high.None? || low.None? || front.None? then None else Some(front.value + [16 * high.value + low.value])
  }

  const BIZ_ID_BYTES := 16

  function Zeros(n: nat): seq<nat> { seq(n, i => 0) }

  /** The BINARY(16) NOT NULL column pads with zeros and refuses NULL and what is too long. */
  function StoredBizId(cmdId: string): Option<seq<nat>> {
    var bytes := Unhex(cmdId);
    if bytes.None? || |bytes.value| > BIZ_ID_BYTES then None
    else Some(bytes.value + Zeros(BIZ_ID_BYTES - |bytes.value|))
  }

  /** Only a value of the column's full width can equal what is stored. */
  predicate FullBizId(cmdId: string) { Unhex(cmdId).Some? && |Unhex(cmdId).value| == BIZ_ID_BYTES }

  function EconomyKey(cmd: Command): LedgerKey {
    var stored := StoredBizId(cmd.cmdId);
    LedgerKey(cmd.actorUser, if cmd.kind == PurchaseSeed then ShopPurchase else FarmSell,
              OfCommand(if stored.Some? then stored.value else []))
  }

  predicate QuantityAllowed(qty: int) { 1 <= qty <= MAX_ECONOMY_QUANTITY }

  function LedgerHit(db: Db, cmd: Command): Option<CommitResult> {
    if FullBizId(cmd.cmdId) && EconomyKey(cmd) in db.ledger then
      Some(CommitResult(0, None, None, true, db.ledger[EconomyKey(cmd)].balanceAfter))
    else None
  }

  /** The locked part of an economic command: wallet, inventory and ledger, or nothing. */
  function FinishEconomic(db: Db, cmd: Command, eventId: nat): Result<Committed, Error> {
    var cfg := GetCropConfig(cmd.cropId);
    var key := EconomyKey(cmd);
    if cfg.Err? then Err(cfg.error)
    else if cmd.actorUser !in db.wallets then Err(Internal)
    else
      var balance := db.wallets[cmd.actorUser];
      var item := CropIdToItemId(cmd.cropId);
      if cmd.kind == PurchaseSeed then
        var price := Wrap64(cfg.value.seedPrice * cmd.quantity);
        if balance < price then Err(Insufficient)
        else
          Posted(db, cmd, key, eventId, balance, -price,
                 AddItem(db.inventory, InventoryKey(cmd.actorUser, SeedItem, item), cmd.quantity))
      else
        var k := InventoryKey(cmd.actorUser, CropItem, item);
        if !CanDeduct(db.inventory, k, cmd.quantity) then Err(Insufficient)
        else
          Posted(db, cmd, key, eventId, balance, Wrap64(cfg.value.sellPrice * cmd.quantity),
                 db.inventory[k := db.inventory[k] - cmd.quantity])
  }

  /**
   * Wallet update and ledger insert; a negative balance is refused by the wallet's check constraint, and an
   * identifier the ledger cannot store by its column.
   */
  function Posted(db: Db, cmd: Command, key: LedgerKey, eventId: nat, balance: int, delta: int,
                  inventory: map<InventoryKey, int>): Result<Committed, Error> {
    var after := Wrap64(balance + delta);
    if after < 0 || StoredBizId(cmd.cmdId).None? then Err(Internal)
    else if key in db.ledger then Err(DuplicateKey)
    else
      Ok(Committed(
        db.(wallets := db.wallets[cmd.actorUser := after], inventory := inventory,
            ledger := db.ledger[key := LedgerRow(balance, delta, after)]),
        CommitResult(0, None, Some(eventId), false, after)))
  }

  // ---- Route fence ----

  function FinishAdvance(db: Db, farmId: int, epoch: int): Result<Db, Error> {
    if epoch <= 0 then Err(InvalidArgument)
    else if farmId !in db.farms then Err(FarmNotFound)
    else if epoch < db.farms[farmId].routeEpoch then Err(RoutingEpochStale)
    else Ok(db.(farms := db.farms[farmId := db.farms[farmId].(routeEpoch := epoch)]))
  }

  // ---- The projector's half of a cross-shard theft ----

  function StealLedgerKey(actor: int, eventId: nat): LedgerKey { LedgerKey(actor, CrossShardSteal, OfEvent(eventId)) }

  function FinishCredit(db: Db, actor: int, cropId: string, quantity: int, eventId: nat): Db {
    var key := StealLedgerKey(actor, eventId);
    if key in db.ledger then db
    else
      db.(ledger := db.ledger[key := LedgerRow(0, 0, 0)],
          inventory := AddItem(db.inventory, InventoryKey(actor, CropItem, CropIdToItemId(cropId)), quantity))
  }

  // ---- Pets ----

  const PET_PRICE := 200

  /** Buying a pet charges the wallet and opens the first slot, counted from before the row locks. */
  function FinishBuyPet(db: Db, user: int, now: Time, jitter: nat): Result<Db, Error> {
    if user !in db.farms then Err(FarmNotFound)
    else if user in db.pets then Err(PetAlreadyEquipped)
    else if user !in db.wallets then Err(Internal)
    else if db.wallets[user] < PET_PRICE then Err(Insufficient)
    else
      Ok(db.(wallets := db.wallets[user := db.wallets[user] - PET_PRICE],
             pets := db.pets[user := Pet(true, true)],
             farms := db.farms[user := db.farms[user].(
               nextPetAt := Some(StoreMillis(now + PET_INTERVAL + jitter * SECOND)), lease := None)]))
  }

  /**
   * The switch: turning it on opens a slot, turning it off closes it, repeating "on" does nothing. A
   * schedule update that finds every column as it would leave it affects no row, and is taken for a
   * missing farm.
   */
  function FinishSetAutoHarvest(db: Db, user: int, enabled: bool, now: Time, jitter: nat): Result<Db, Error> {
    if user !in db.farms then Err(FarmNotFound)
    else if user !in db.pets || !db.pets[user].active then Err(PetNotOwned)
    else if db.pets[user].autoHarvest && enabled then Ok(db)
    else
      var slot := if enabled then Some(StoreMillis(now + PET_INTERVAL + jitter * SECOND)) else None;
      var row := db.farms[user].(nextPetAt := slot, lease := None);
      if row == db.farms[user] then Err(FarmNotFound)
      else
        Ok(db.(pets := db.pets[user := db.pets[user].(autoHarvest := enabled)], farms := db.farms[user := row]))
  }

  /** A farm a scanner may claim: its pet is on, its slot is due, and no lease covers it. */
  predicate Claimable(db: Db, farmId: int, now: Time) {
    && farmId in db.farms
    && db.farms[farmId].ownerId in db.pets
    && db.pets[db.farms[farmId].ownerId] == Pet(true, true)
    && db.farms[farmId].nextPetAt.Some? && db.farms[farmId].nextPetAt.value <= now
    && (db.farms[farmId].lease.None? || db.farms[farmId].lease.value.until <= now)
  }

  predicate HoldsLease(row: FarmRow, token: nat, now: Time) {
    row.lease.Some? && row.lease.value.token == token && row.lease.value.until > now
  }

  function Leased(db: Db, farmId: int, token: nat, until: Time): Db
    requires farmId in db.farms
  {
    db.(farms := db.farms[farmId := db.farms[farmId].(lease := Some(Lease(token, until)))])
  }

  /** The renewal touches nothing unless this very claim still holds an unexpired lease. */
  function FinishRenew(db: Db, farmId: int, token: nat, now: Time, ttl: Time): Db {
    if farmId !in db.farms || !HoldsLease(db.farms[farmId], token, now) then db else Leased(db, farmId, token, now + ttl)
  }

  /** The reschedule also requires the slot to be the one that was claimed. */
  function FinishPush(db: Db, farmId: int, expected: Time, token: nat, now: Time): Db {
    if farmId !in db.farms || !HoldsLease(db.farms[farmId], token, now) || db.farms[farmId].nextPetAt != Some(expected) then db
    else db.(farms := db.farms[farmId := Rescheduled(db.farms[farmId], now)])
  }
}
