/** The committer as it runs: one transaction per attempt over one shard's tables. */
module FarmCommitter {
  import opened Prelude
  import opened FarmDomain
  import opened FarmRules
  import opened FarmTables
  import opened FarmAdmission
  import opened EconomyAdmission
  import Outbox

  /** The snapshot a transaction holds in memory between the row lock and the upsert. */
  class Snapshot {
    const farmId: int
    const ownerId: int
    const routeEpoch: int
    var version: int
    var plots: Plots

    constructor (farmId: int, ownerId: int, version: int, routeEpoch: int, plots: Plots)
      ensures this.farmId == farmId && this.ownerId == ownerId && this.routeEpoch == routeEpoch
      ensures this.version == version && this.plots == plots
    {
      this.farmId, this.ownerId, this.routeEpoch := farmId, ownerId, routeEpoch;
      this.version, this.plots := version, plots;
    }

    /** The running minimum over an unordered map is the smallest mature plot, if there is one. */
    method SmallestMaturePlotId(now: Time) returns (smallest: int, found: bool)
      ensures found ==> SmallestMature(plots, smallest, now)
      ensures !found ==> forall q :: !MatureAt(plots, q, now)
    {
      smallest, found := 0, false;
      var rest: set<int> := plots.Keys;
      while rest != {}
        invariant rest <= plots.Keys
        invariant found ==> MatureAt(plots, smallest, now)
        invariant forall q :: MatureAt(plots, q, now) && q !in rest ==> found && smallest <= q
        decreases |rest|
      {
        var q := Pick(rest);
        rest := rest - {q};
        if plots[q].EffectiveStatus(now) == PlotStatus.Mature && (!found || q < smallest) {
          smallest, found := q, true;
        }
      }
    }

    /** Applies a command to the plots in place; a refused command leaves them as they were. */
    method ApplyCmd(cmd: Command, now: Time) returns (r: Result<ApplyResult, Error>)
      modifies this`plots
      ensures var spec := Apply(old(plots), cmd, now);
        if spec.Ok? then r == Ok(spec.value.result) && plots == spec.value.plots
        else r == Err(spec.error) && plots == old(plots)
    {
      var plot := if cmd.plotId in plots then plots[cmd.plotId] else ZERO_PLOT;
      plot := plot.(plotId := cmd.plotId);
      match cmd.kind {
        case Plant =>
          if plot.status != Unset && plot.status != Empty {
            return Err(PlotState);
          }
          var duration := DEFAULT_GROWTH;
          var cfg := GetCropConfig(cmd.cropId);
          if cfg.Ok? {
            duration := cfg.value.growthDuration;
          }
          plot := plot.(cropId := cmd.cropId, status := Growing, plantedAt := now, matureAt := now + duration,
                        wateredCount := 0, remainingYield := HarvestYieldForCrop(cmd.cropId));
          plots := plots[cmd.plotId := plot];
          return Ok(ApplyResult(plot, FarmPlanted, "", 0, false, 0, 0));
        case Harvest =>
          if plot.EffectiveStatus(now) != PlotStatus.Mature {
            return Err(PlotState);
          }
          var crop, amount := plot.cropId, plot.remainingYield;
          plot := ZERO_PLOT.(plotId := cmd.plotId, status := Empty);
          plots := plots[cmd.plotId := plot];
          return Ok(ApplyResult(plot, FarmHarvested, crop, amount, false, 0, 0));
        case Water =>
          r := WaterPlot(plot, now);
        case HelpWater =>
          r := WaterPlot(plot, now);
        case StealCrop =>
          if plot.EffectiveStatus(now) != PlotStatus.Mature {
            return Err(PlotState);
          }
          var stealAmount := HarvestYieldForCrop(plot.cropId) / 5;
          if stealAmount <= 0 || plot.remainingYield <= stealAmount {
            return Err(PlotState);
          }
          plot := plot.(remainingYield := plot.remainingYield - stealAmount);
          plots := plots[cmd.plotId := plot];
          return Ok(ApplyResult(plot, FarmStolen, plot.cropId, 0, false, stealAmount, plot.remainingYield));
        case PetAutoHarvest =>
          if plot.EffectiveStatus(now) != PlotStatus.Mature {
            return Err(PlotState);
          }
          var smallest, found := SmallestMaturePlotId(now);
          if !found || smallest != cmd.plotId {
            return Err(VersionConflict);
          }
          var crop, amount := plot.cropId, plot.remainingYield;
          plot := ZERO_PLOT.(plotId := cmd.plotId, status := Empty);
          plots := plots[cmd.plotId := plot];
          return Ok(ApplyResult(plot, FarmHarvested, crop, amount, true, 0, 0));
        case _ =>
          return Err(InvalidArgument);
      }
    }

    method WaterPlot(plot: Plot, now: Time) returns (r: Result<ApplyResult, Error>)
      modifies this`plots
      ensures var spec := FarmRules.Watered(old(plots), plot, now);
        if spec.Ok? then r == Ok(spec.value.result) && plots == spec.value.plots
        else r == Err(spec.error) && plots == old(plots)
    {
      var eff := plot.EffectiveStatus(now);
      if eff == Empty || eff == Unset {
        return Err(PlotState);
      }
      var watered := plot;
      var stage := plot.StageAt(now);
      if (stage == Seedling && plot.wateredCount == 0) || (stage == SemiMature && plot.wateredCount == 1) {
        watered := plot.(matureAt := plot.matureAt - MINUTE, wateredCount := plot.wateredCount + 1);
      }
      plots := plots[plot.plotId := watered];
      return Ok(ApplyResult(watered, FarmWatered, "", 0, false, 0, 0));
    }
  }

  class MySQLCommitter {
    var db: Db
    const wiring: Wiring

    constructor (db: Db, wiring: Wiring)
      ensures this.db == db && this.wiring == wiring
    {
      this.db, this.wiring := db, wiring;
    }

    /** Credits and debits of a farm command on the transaction's working copy. */
    method ApplyEconomicSideEffects(tx: Db, cmd: Command, ar: ApplyResult, ownerId: int, now: Time)
      returns (r: Result<Db, Error>)
      ensures r == SideEffects(tx, wiring, cmd, ar, ownerId, now)
    {
      var out := tx;
      match cmd.kind {
        case Plant =>
          var cfg := GetCropConfig(cmd.cropId);
          if cfg.Err? {
            return Ok(out);
          }
          var k := InventoryKey(cmd.actorUser, SeedItem, CropIdToItemId(cmd.cropId));
          if k !in out.inventory || out.inventory[k] < 1 {
            return Err(Insufficient);
          }
          out := out.(inventory := out.inventory[k := out.inventory[k] - 1]);
        case Harvest =>
          if ar.harvestedYield > 0 {
            var k := InventoryKey(ownerId, CropItem, CropIdToItemId(ar.harvestedCropId));
            out := out.(inventory := AddItem(out.inventory, k, ar.harvestedYield));
          }
        case PetAutoHarvest =>
          if ar.harvestedYield > 0 {
            var k := InventoryKey(ownerId, CropItem, CropIdToItemId(ar.harvestedCropId));
            out := out.(inventory := AddItem(out.inventory, k, ar.harvestedYield));
          }
          var affected := 0;
          if cmd.farmId in out.farms && out.farms[cmd.farmId].nextPetAt == Some(cmd.petScheduledAt) {
            var row := out.farms[cmd.farmId];
            row := row.(nextPetAt := Some(StoreMillis(now + PET_INTERVAL)), lease := None);
            out := out.(farms := out.farms[cmd.farmId := row]);
            affected := 1;
          }
          if affected != 1 {
            return Err(VersionConflict);
          }
        case StealCrop =>
          if !DefersCredit(wiring, ownerId, cmd.actorUser) {
            var k := InventoryKey(cmd.actorUser, CropItem, CropIdToItemId(ar.harvestedCropId));
            out := out.(inventory := AddItem(out.inventory, k, ar.stolenAmount));
          }
        case _ =>
      }
      return Ok(out);
    }

    /** The checks on the locked row, one by one; the first that fails ends the transaction. */
    method Authorize(tx: Db, cmd: Command, now: Time) returns (objection: Option<Error>)
      ensures objection == FirstObjection(tx, wiring, cmd, now)
      ensures var row := Stored(tx, cmd.farmId);
        objection == Some(NotFriend) <==>
          && (cmd.kind == HelpWater || cmd.kind == StealCrop)
          && cmd.routeEpoch == row.routeEpoch && cmd.baseVersion == row.version && cmd.actorUser != row.ownerId
          && !Befriended(tx, wiring, row.ownerId, cmd.actorUser)
    {
      var row := RowOf(tx, cmd.farmId);
      if cmd.routeEpoch != row.routeEpoch {
        return Some(RoutingFenced);
      }
      if cmd.kind == PetAutoHarvest {
        if cmd.actorUser != row.ownerId {
          return Some(NotFarmOwner);
        }
        if cmd.petScheduledAt == 0 {
          return Some(InvalidArgument);
        }
        if row.nextPetAt.None? || !SameMillis(row.nextPetAt.value, cmd.petScheduledAt) {
          return Some(VersionConflict);
        }
        if now < row.nextPetAt.value {
          return Some(VersionConflict);
        }
      }
      if cmd.kind != PetAutoHarvest && cmd.baseVersion != row.version {
        return Some(VersionConflict);
      }
      if cmd.kind == HelpWater || cmd.kind == StealCrop {
        if cmd.actorUser == row.ownerId {
          return Some(NotFarmOwner);
        }
        var friends := CheckFriendship(tx, cmd.actorUser, row.ownerId);
        if !friends {
          return Some(NotFriend);
        }
      }
      if cmd.kind == PetAutoHarvest {
        if row.ownerId !in tx.pets || !tx.pets[row.ownerId].active {
          return Some(PetNotOwned);
        }
        if !tx.pets[row.ownerId].autoHarvest {
          return Some(PetAutoDisabled);
        }
      }
      return None;
    }

    method CheckFriendship(tx: Db, userA: int, userB: int) returns (friends: bool)
      ensures friends == FarmTables.AreFriends(tx, wiring, userA, userB) == Befriended(tx, wiring, userB, userA)
    {
      if wiring.friendshipEdges && (userB, userA) in tx.activeEdges {
        return true;
      }
      var a, b := userA, userB;
      if a > b {
        a, b := b, a;
      }
      return (a, b) in tx.friendships;
    }

    /**
     * One attempt of a farm command: a receipt answers at once; otherwise the locked transaction commits
     * everything, exactly when the rows admit the command and its keys are free, or nothing, and then with
     * the refusal of its kind.
     */
    method CommitFarmCommandOnce(cmd: Command, now: Time, eventId: nat) returns (r: Result<CommitResult, Error>)
      requires !Economic(cmd.kind)
      modifies this`db
      ensures ReceiptHit(old(db), cmd).Some? ==> db == old(db) && r == Ok(ReceiptHit(old(db), cmd).value)
      ensures ReceiptHit(old(db), cmd).None? ==>
        var spec := FinishFarm(old(db), wiring, cmd, now, eventId);
        if spec.Ok? then db == spec.value.db && r == Ok(spec.value.result)
        else db == old(db) && r == Err(spec.error)
      ensures ReceiptHit(old(db), cmd).None? ==>
        && (r.Ok? <==> Admitted(old(db), wiring, cmd, now) && KeysFree(old(db), cmd, eventId))
        && Refusal(old(db), wiring, cmd, now, eventId) == (if r.Err? then Some(r.error) else None)
    {
      CommitsExactly(db, wiring, cmd, now, eventId);
      RefusedExactly(db, wiring, cmd, now, eventId);
      var tx := db;
      if RequiresReceipt(cmd.kind) {
        var key := ReceiptKey(cmd.actorUser, cmd.cmdId);
        if key in tx.receipts {
          return Ok(CommitResult(tx.receipts[key], None, None, true, 0));
        }
      }
      var row := RowOf(tx, cmd.farmId);
      var objection := Authorize(tx, cmd, now);
      if objection.Some? {
        return Err(objection.value);
      }
      var snap := new Snapshot(cmd.farmId, row.ownerId, row.version, row.routeEpoch, Unmarshal(row.snapshot));
      var applied := snap.ApplyCmd(cmd, now);
      if applied.Err? {
        return Err(applied.error);
      }
      var ar := applied.value;
      snap.version := snap.version + 1;
      var paid := ApplyEconomicSideEffects(tx, cmd, ar, snap.ownerId, now);
      if paid.Err? {
        return Err(paid.error);
      }
      var written := UpsertReceiptOutbox(paid.value, row, cmd, Applied(snap.plots, ar), snap.version, now, eventId);
      if written.Err? {
        return Err(written.error);
      }
      db := written.value.db;
      return Ok(written.value.result);
    }

    /** The three writes that end a farm command, on the transaction's working copy. */
    method UpsertReceiptOutbox(tx: Db, row: FarmRow, cmd: Command, applied: Applied, version: int, now: Time, eventId: nat)
      returns (r: Result<Committed, Error>)
      requires version == row.version + 1
      ensures r == WriteOut(tx, row, cmd, applied, now, eventId)
    {
      var out := tx;
      var upserted := RowOf(out, cmd.farmId).(version := version, snapshot := Marshal(applied.plots),
                                              routeEpoch := row.routeEpoch);
      out := out.(farms := out.farms[cmd.farmId := upserted]);
      if RequiresReceipt(cmd.kind) {
        var key := ReceiptKey(cmd.actorUser, cmd.cmdId);
        if key in out.receipts {
          return Err(DuplicateKey);
        }
        out := out.(receipts := out.receipts[key := version]);
      }
      if eventId in out.outbox {
        return Err(DuplicateKey);
      }
      var payload := BuildPayload(cmd, applied.result, row.ownerId, version, now);
      out := out.(outbox := out.outbox[eventId := Outbox.NewRow(out.nextOutboxId, payload, now)],
                  nextOutboxId := out.nextOutboxId + 1);
      return Ok(Committed(out, CommitResult(version, Some(applied.result.changedPlot), Some(eventId), false, 0)));
    }

    /** The wallet's new balance; the check constraint refuses a negative one. */
    method SetWalletBalance(tx: Db, user: int, newBalance: int) returns (r: Result<Db, Error>)
      ensures r == if newBalance < 0 then Err(Internal) else Ok(tx.(wallets := tx.wallets[user := newBalance]))
    {
      if newBalance < 0 {
        return Err(Internal);
      }
      return Ok(tx.(wallets := tx.wallets[user := newBalance]));
    }

    /** The ledger row of a trade: its identifier must fit the column, and its key must be new. */
    method InsertEconomyTransaction(tx: Db, cmd: Command, row: LedgerRow) returns (r: Result<Db, Error>)
      ensures r == if StoredBizId(cmd.cmdId).None? then Err(Internal)
                   else if EconomyKey(cmd) in tx.ledger then Err(DuplicateKey)
                   else Ok(tx.(ledger := tx.ledger[EconomyKey(cmd) := row]))
    {
      if StoredBizId(cmd.cmdId).None? {
        return Err(Internal);
      }
      if EconomyKey(cmd) in tx.ledger {
        return Err(DuplicateKey);
      }
      return Ok(tx.(ledger := tx.ledger[EconomyKey(cmd) := row]));
    }

    /** The end of a trade: the wallet first, then its ledger row. */
    method Post(tx: Db, cmd: Command, eventId: nat, balance: int, delta: int) returns (r: Result<Committed, Error>)
      ensures r == Posted(tx, cmd, EconomyKey(cmd), eventId, balance, delta, tx.inventory)
    {
      var newBalance := Wrap64(balance + delta);
      var paid := SetWalletBalance(tx, cmd.actorUser, newBalance);
      if paid.Err? {
        return Err(paid.error);
      }
      var posted := InsertEconomyTransaction(paid.value, cmd, LedgerRow(balance, delta, newBalance));
      if posted.Err? {
        return Err(posted.error);
      }
      return Ok(Committed(posted.value, CommitResult(0, None, Some(eventId), false, newBalance)));
    }

    /** The locked part of a purchase or a sale, on the transaction's working copy. */
    method Trade(tx: Db, cmd: Command, eventId: nat) returns (r: Result<Committed, Error>)
      requires Economic(cmd.kind)
      ensures r == FinishEconomic(tx, cmd, eventId)
    {
      var out, qty := tx, cmd.quantity;
      var cfg := GetCropConfig(cmd.cropId);
      if cfg.Err? {
        return Err(cfg.error);
      }
      if cmd.actorUser !in out.wallets {
        return Err(Internal);
      }
      var itemId := CropIdToItemId(cmd.cropId);
      var balance := out.wallets[cmd.actorUser];
      var delta;
      if cmd.kind == PurchaseSeed {
        var price := Wrap64(cfg.value.seedPrice * qty);
        if balance < price {
          return Err(Insufficient);
        }
        delta := -price;
        out := out.(inventory := AddItem(out.inventory, InventoryKey(cmd.actorUser, SeedItem, itemId), qty));
      } else {
        var k := InventoryKey(cmd.actorUser, CropItem, itemId);
        if k !in out.inventory || out.inventory[k] < qty {
          return Err(Insufficient);
        }
        delta := Wrap64(cfg.value.sellPrice * qty);
        out := out.(inventory := out.inventory[k := out.inventory[k] - qty]);
      }
      r := Post(out, cmd, eventId, balance, delta);
    }

    /** One attempt of a purchase or a sale. */
    method CommitEconomicTx(cmd: Command, eventId: nat) returns (r: Result<CommitResult, Error>)
      requires Economic(cmd.kind)
      modifies this`db
      ensures !QuantityAllowed(cmd.quantity) ==> db == old(db) && r == Err(InvalidArgument)
      ensures QuantityAllowed(cmd.quantity) && LedgerHit(old(db), cmd).Some? ==>
                db == old(db) && r == Ok(LedgerHit(old(db), cmd).value)
      ensures QuantityAllowed(cmd.quantity) && LedgerHit(old(db), cmd).None? ==>
        var spec := FinishEconomic(old(db), cmd, eventId);
        if spec.Ok? then db == spec.value.db && r == Ok(spec.value.result)
        else db == old(db) && r == Err(spec.error)
      ensures 1 <= cmd.quantity <= 10_000 && LedgerHit(old(db), cmd).None? && WalletColumn(old(db), cmd.actorUser) ==>
        && (r.Ok? <==> TradeAdmitted(old(db), cmd))
        && (if r.Ok? then TradeWritten(old(db), db, cmd) else db == old(db) && TradeRefusal(old(db), cmd) == Some(r.error))
    {
      var qty := cmd.quantity;
      if qty < 1 || qty > MAX_ECONOMY_QUANTITY {
        return Err(InvalidArgument);
      }
      var key := EconomyKey(cmd);
      if FullBizId(cmd.cmdId) && key in db.ledger {
        return Ok(CommitResult(0, None, None, true, db.ledger[key].balanceAfter));
      }
      var done := Trade(db, cmd, eventId);
      if WalletColumn(db, cmd.actorUser) { TradesCommitExactly(db, cmd, eventId); }
      if done.Err? {
        return Err(done.error);
      }
      db := done.value.db;
      return Ok(done.value.result);
    }

    /** The durable ownership cutover: the fence only ever moves up. */
    method AdvanceRouteEpoch(farmId: int, epoch: int) returns (r: Result<int, Error>)
      modifies this`db
      ensures var spec := FinishAdvance(old(db), farmId, epoch);
        if spec.Ok? then db == spec.value && r == Ok(epoch) else db == old(db) && r == Err(spec.error)
      ensures r.Ok? ==> farmId in db.farms && db.farms[farmId].routeEpoch == epoch
                        && epoch >= old(db).farms[farmId].routeEpoch
    {
      if epoch <= 0 {
        return Err(InvalidArgument);
      }
      if farmId !in db.farms {
        return Err(FarmNotFound);
      }
      var current := db.farms[farmId].routeEpoch;
      if epoch < current {
        return Err(RoutingEpochStale);
      }
      if epoch > current {
        db := db.(farms := db.farms[farmId := db.farms[farmId].(routeEpoch := epoch)]);
      }
      assert db.farms == old(db).farms[farmId := old(db).farms[farmId].(routeEpoch := epoch)];
      return Ok(epoch);
    }
  }
}
