/** Wallets and stocks over every run, accounted for command by command. */
module Accounts {
  import opened Prelude
  import opened FarmDomain
  import opened FarmRules
  import opened FarmTables
  import opened Cluster
  import opened FarmLog
  import opened CropConservation
  import opened EconomyOnce
  import FarmAdmission
  import EconomyAdmission

  // ---- What one step moves on shard i ----

  /** The step changed a table somewhere. */
  ghost predicate Effective(w: World, s: Step) { Shape(w) && Next(w, s).shards != w.shards }

  predicate On(w: World, user: int, i: nat) { w.wiring.shardCount > 0 && user % w.wiring.shardCount == i }

  ghost predicate Trades(w: World, s: Step, i: nat, user: int) {
    Effective(w, s) && s.CommitEconomy? && On(w, s.cmd.farmId, i) && s.cmd.actorUser == user && s.cmd.cropId in CROP_CONFIGS
  }

  ghost function SpentBy(w: World, s: Step, i: nat, user: int): int {
    if Trades(w, s, i, user) && s.cmd.kind == PurchaseSeed then CROP_CONFIGS[s.cmd.cropId].seedPrice * s.cmd.quantity else 0
  }

  ghost function EarnedBy(w: World, s: Step, i: nat, user: int): int {
    if Trades(w, s, i, user) && s.cmd.kind == SellCrop then CROP_CONFIGS[s.cmd.cropId].sellPrice * s.cmd.quantity else 0
  }

  ghost function BoughtBy(w: World, s: Step, i: nat, k: InventoryKey): int {
    if Trades(w, s, i, k.user) && s.cmd.kind == PurchaseSeed && k.kind == SeedItem && k.itemId == CropIdToItemId(s.cmd.cropId)
    then s.cmd.quantity else 0
  }

  ghost function SoldBy(w: World, s: Step, i: nat, k: InventoryKey): int {
    if Trades(w, s, i, k.user) && s.cmd.kind == SellCrop && k.kind == CropItem && k.itemId == CropIdToItemId(s.cmd.cropId)
    then s.cmd.quantity else 0
  }

  ghost function OpenedWith(w: World, s: Step, i: nat, k: InventoryKey): int {
    if Effective(w, s) && s.CreateAccount? && On(w, s.user, i) && k == InventoryKey(s.user, SeedItem, 1) then 5 else 0
  }

  ghost function MailedBy(w: World, s: Step, i: nat, k: InventoryKey): int {
    if Effective(w, s) && s.MailItem? && On(w, s.user, i) && k == InventoryKey(s.user, s.kind, s.itemId) then s.quantity else 0
  }

  ghost predicate WorksOn(w: World, s: Step, i: nat) {
    Effective(w, s) && s.CommitFarm? && On(w, s.cmd.farmId, i)
  }

  ghost function PlantedBy(w: World, s: Step, i: nat, k: InventoryKey): int {
    if && WorksOn(w, s, i) && s.cmd.kind == Plant && s.cmd.cropId in CROP_CONFIGS
       && k == InventoryKey(s.cmd.actorUser, SeedItem, CropIdToItemId(s.cmd.cropId)) then 1 else 0
  }

  /** A harvest, also a pet's, brings the farm's owner what is left on the plot. */
  ghost function ReapedBy(w: World, s: Step, i: nat, k: InventoryKey): int {
    if WorksOn(w, s, i) && i < |w.shards| && (s.cmd.kind == Harvest || s.cmd.kind == PetAutoHarvest) then
      var json := FarmAdmission.Stored(w.shards[i], s.cmd.farmId).snapshot;
      if s.cmd.plotId in json && k == InventoryKey(s.cmd.farmId, CropItem, CropIdToItemId(json[s.cmd.plotId].cropId))
      then FarmAdmission.Left(json[s.cmd.plotId]) else 0
    else 0
  }

  /** A theft brings the thief a fifth of the crop at once when both live on this shard. */
  ghost function RobbedBy(w: World, s: Step, i: nat, k: InventoryKey): int {
    if WorksOn(w, s, i) && i < |w.shards| && s.cmd.kind == StealCrop && (On(w, s.cmd.actorUser, i) || s.cmd.actorUser <= 0) then
      var json := FarmAdmission.Stored(w.shards[i], s.cmd.farmId).snapshot;
      if s.cmd.plotId in json && k == InventoryKey(s.cmd.actorUser, CropItem, CropIdToItemId(json[s.cmd.plotId].cropId))
      then HarvestYieldForCrop(json[s.cmd.plotId].cropId) / 5 else 0
    else 0
  }

  /** The first delivery of a theft on another shard brings the thief what its event says. */
  ghost function DeliveredBy(w: World, s: Step, i: nat, k: InventoryKey): int {
    if && Effective(w, s) && s.DeliverStolen? && s.payload.Stolen? && On(w, s.payload.actorId, i)
       && k == InventoryKey(s.payload.actorId, CropItem, CropIdToItemId(s.payload.cropId)) then s.payload.stolenAmount else 0
  }

  ghost function Coming(w: World, s: Step, i: nat, k: InventoryKey): int {
    OpenedWith(w, s, i, k) + BoughtBy(w, s, i, k) + MailedBy(w, s, i, k) + ReapedBy(w, s, i, k) + RobbedBy(w, s, i, k)
    + DeliveredBy(w, s, i, k)
  }

  ghost function Going(w: World, s: Step, i: nat, k: InventoryKey): int { PlantedBy(w, s, i, k) + SoldBy(w, s, i, k) }

  /** From w to v the stock row k of shard i moved by this much. */
  ghost predicate StockMoves(w: World, v: World, i: nat, k: InventoryKey, amount: int) {
    i < |w.shards| == |v.shards| && Held(v, i, k) == Held(w, i, k) + amount
  }

  function Held(w: World, i: nat, k: InventoryKey): int
    requires i < |w.shards|
  {
    if k in w.shards[i].inventory then w.shards[i].inventory[k] else 0
  }

  // ---- Trades ----

  lemma ColumnHolds(w: World, i: nat, user: int)
    requires EconomyInvariant(w) && i < |w.shards|
    ensures EconomyAdmission.WalletColumn(w.shards[i], user)
  {
    assert BooksSound(w.shards[i], w.credits[i]);
    assert WalletSound(w.shards[i], w.credits[i], user);
  }

  /** A purchase or sale takes effect if and only if its quantity is legal and the rows admit it. */
  lemma TradesTakeEffectExactly(w: World, cmd: Command, eventId: nat)
    requires EconomyInvariant(w)
    ensures Effective(w, CommitEconomy(cmd, eventId)) <==>
      && (cmd.kind == PurchaseSeed || cmd.kind == SellCrop) && 1 <= cmd.quantity <= 10_000
      && EconomyAdmission.TradeAdmitted(w.shards[Home(w, cmd.farmId)], cmd)
    ensures Effective(w, CommitEconomy(cmd, eventId)) ==> TradeDone(w, Next(w, CommitEconomy(cmd, eventId)), cmd)
  {
    var i := Home(w, cmd.farmId);
    ColumnHolds(w, i, cmd.actorUser);
    if Economic(cmd.kind) && QuantityAllowed(cmd.quantity) {
      EconomyAdmission.TradesCommitExactly(w.shards[i], cmd, eventId);
      if EconomyCommits(w, cmd, eventId) {
        var v := AfterCommitEconomy(w, cmd, eventId);
        assert v.shards[i].ledger != w.shards[i].ledger by {
          assert EconomyAdmission.LedgerRowKey(cmd) in v.shards[i].ledger;
        }
      }
    }
  }

  ghost predicate TradeDone(w: World, v: World, cmd: Command)
    requires Shape(w)
  {
    var i := Home(w, cmd.farmId);
    && i < |v.shards| == |w.shards|
    && EconomyAdmission.TradeAdmitted(w.shards[i], cmd) && EconomyAdmission.TradeWritten(w.shards[i], v.shards[i], cmd)
    && v.shards == w.shards[i := v.shards[i]]
  }

  /** Asking again adds the balance of the ledger row, if quantity and identifier are fit for it and it is there. */
  lemma AskingAgainAddsTheBalance(w: World, cmd: Command)
    requires Shape(w)
    ensures var i := Home(w, cmd.farmId);
      Next(w, AskEconomy(cmd)) ==
        if && (cmd.kind == PurchaseSeed || cmd.kind == SellCrop) && 1 <= cmd.quantity <= 10_000
           && EconomyAdmission.Storable(cmd.cmdId) && |cmd.cmdId| > 30
           && EconomyAdmission.LedgerRowKey(cmd) in w.shards[i].ledger
        then w.(economyReplies := w.economyReplies
                  + {(i, EconomyAdmission.LedgerRowKey(cmd), w.shards[i].ledger[EconomyAdmission.LedgerRowKey(cmd)].balanceAfter)})
        else w
  {
    if Economic(cmd.kind) {
      EconomyAdmission.LedgerAnswersExactly(w.shards[Home(w, cmd.farmId)], cmd);
      EconomyAdmission.StorableExactly(cmd.cmdId);
    }
  }

  lemma TradeMovesStock(w: World, cmd: Command, eventId: nat, i: nat, k: InventoryKey)
    requires EconomyInvariant(w) && i < |w.shards|
    ensures var s := CommitEconomy(cmd, eventId); StockMoves(w, Next(w, s), i, k, Coming(w, s, i, k) - Going(w, s, i, k))
  {
    TradesTakeEffectExactly(w, cmd, eventId);
  }

  lemma TradeMovesWallet(w: World, cmd: Command, eventId: nat, i: nat, user: int)
    requires EconomyInvariant(w) && i < |w.shards|
    ensures var s := CommitEconomy(cmd, eventId); LedgerMoves(w, Next(w, s), i, user, EarnedBy(w, s, i, user) - SpentBy(w, s, i, user))
  {
    var s := CommitEconomy(cmd, eventId);
    TradesTakeEffectExactly(w, cmd, eventId);
    if Effective(w, s) { DoneTradeMovesWallet(w, Next(w, s), cmd, i, user); }
  }

  lemma DoneTradeMovesWallet(w: World, v: World, cmd: Command, i: nat, user: int)
    requires Shape(w) && TradeDone(w, v, cmd) && i < |w.shards|
    ensures LedgerMoves(w, v, i, user, if Home(w, cmd.farmId) == i && cmd.actorUser == user then EconomyAdmission.Coins(cmd) else 0)
  {
    if Home(w, cmd.farmId) == i { TradeAddsOneRow(w.shards[i], v.shards[i], cmd, user); }
  }

  lemma TradeAddsOneRow(db: Db, db': Db, cmd: Command, user: int)
    requires EconomyAdmission.TradeAdmitted(db, cmd) && EconomyAdmission.TradeWritten(db, db', cmd)
    ensures MapSum(db'.ledger, DeltaOf(user)) == MapSum(db.ledger, DeltaOf(user))
      + if cmd.actorUser == user then EconomyAdmission.Coins(cmd) else 0
  {
    var key, balance := EconomyAdmission.LedgerRowKey(cmd), db.wallets[cmd.actorUser];
    var coins := EconomyAdmission.Coins(cmd);
    MapSumUpdate(db.ledger, DeltaOf(user), key, LedgerRow(balance, coins, balance + coins));
  }

  /** From w to v the ledger rows of the user on shard i came to record this much more. */
  ghost predicate LedgerMoves(w: World, v: World, i: nat, user: int, amount: int) {
    && i < |w.shards| == |v.shards|
    && MapSum(v.shards[i].ledger, DeltaOf(user)) == MapSum(w.shards[i].ledger, DeltaOf(user)) + amount
  }

  // ---- Farm commands ----

  /** A farm command takes effect if and only if the rows admit it, its keys are free, and its clock is sound. */
  lemma WorkTakesEffectExactly(w: World, cmd: Command, at: Time, eventId: nat)
    requires Shape(w)
    ensures Effective(w, CommitFarm(cmd, at, eventId)) <==>
      && HasFarm(w, cmd.farmId) && 0 < at <= w.clock && FreshEvent(w, eventId)
      && (var db := w.shards[Home(w, cmd.farmId)];
          FarmAdmission.Admitted(db, w.wiring, cmd, at) && FarmAdmission.KeysFree(db, cmd, eventId))
    ensures Effective(w, CommitFarm(cmd, at, eventId)) ==> WorkDone(w, Next(w, CommitFarm(cmd, at, eventId)), cmd)
  {
    var i := Home(w, cmd.farmId);
    FarmAdmission.CommitsExactly(w.shards[i], w.wiring, cmd, at, eventId);
    if FarmCommits(w, cmd, at, eventId) {
      FarmAdmission.CommitWrites(w.shards[i], w.wiring, cmd, at, eventId);
      var v := AfterCommitFarm(w, cmd, at, eventId);
      assert v.shards[i].farms[cmd.farmId].version == w.shards[i].farms[cmd.farmId].version + 1;
    }
  }

  ghost predicate WorkDone(w: World, v: World, cmd: Command)
    requires Shape(w)
  {
    var i := Home(w, cmd.farmId);
    && i < |v.shards| == |w.shards| && HasFarm(w, cmd.farmId) && cmd.kind !in {PurchaseSeed, SellCrop, UnknownCommand}
    && FarmAdmission.OwnPlotStored(w.shards[i], cmd)
    && FarmAdmission.StockWritten(w.shards[i], w.wiring, cmd, v.shards[i].inventory)
    && v.shards == w.shards[i := v.shards[i]] && v.shards[i].ledger == w.shards[i].ledger
  }

  lemma WorkMovesStock(w: World, cmd: Command, at: Time, eventId: nat, i: nat, k: InventoryKey)
    requires EconomyInvariant(w) && i < |w.shards|
    ensures var s := CommitFarm(cmd, at, eventId);
      StockMoves(w, Next(w, s), i, k, Coming(w, s, i, k) - Going(w, s, i, k))
  {
    var s := CommitFarm(cmd, at, eventId);
    WorkTakesEffectExactly(w, cmd, at, eventId);
    if Effective(w, s) {
      if cmd.kind == Harvest || cmd.kind == PetAutoHarvest { SomethingIsLeft(w, cmd, at, eventId); }
      DoneWorkMovesStock(w, Next(w, s), s, i, k);
    }
  }

  /** A ripe plot of a reachable farm still holds something. */
  lemma SomethingIsLeft(w: World, cmd: Command, at: Time, eventId: nat)
    requires EconomyInvariant(w) && FarmCommits(w, cmd, at, eventId) && (cmd.kind == Harvest || cmd.kind == PetAutoHarvest)
    ensures var json := FarmAdmission.Stored(w.shards[Home(w, cmd.farmId)], cmd.farmId).snapshot;
      cmd.plotId in json && FarmAdmission.Left(json[cmd.plotId]) >= 1
  {
    var db := w.shards[Home(w, cmd.farmId)];
    var row := db.farms[cmd.farmId];
    FarmCommitHasEffect(db, w.wiring, cmd, at, eventId);
    assert Histories(db.farms, w.logs);
    assert FarmHistory(cmd.farmId, row, LogOf(w, cmd.farmId));
    ReportedAmounts(Unmarshal(row.snapshot), cmd, at);
    FarmAdmission.AppliedReports(row.snapshot, cmd, at);
  }

  lemma DoneWorkMovesStock(w: World, v: World, s: Step, i: nat, k: InventoryKey)
    requires Shape(w) && s.CommitFarm? && Effective(w, s) && WorkDone(w, v, s.cmd) && i < |w.shards|
    requires s.cmd.kind == Harvest || s.cmd.kind == PetAutoHarvest ==>
      FarmAdmission.Left(FarmAdmission.Stored(w.shards[Home(w, s.cmd.farmId)], s.cmd.farmId).snapshot[s.cmd.plotId]) >= 1
    ensures StockMoves(w, v, i, k, ReapedBy(w, s, i, k) + RobbedBy(w, s, i, k) - PlantedBy(w, s, i, k))
  {
    var home := Home(w, s.cmd.farmId);
    if i == home {
      assert RowsAtHome(w.shards[home].farms, home, w.wiring.shardCount);
      WrittenStockMoves(w, v, s.cmd, k);
    }
  }

  /** The stock a committed farm command writes, row by row. */
  lemma WrittenStockMoves(w: World, v: World, cmd: Command, k: InventoryKey)
    requires Shape(w) && WorkDone(w, v, cmd)
    ensures var i := Home(w, cmd.farmId);
      Held(v, i, k) == Held(w, i, k) + match FarmAdmission.StockMove(w.shards[i], w.wiring, cmd)
        case None => 0
        case Some((key, n)) => if key == k then n else 0
  {
  }

  // ---- The other steps that move stock ----

  /** A mail takes effect if and only if its user has a wallet and it carries something. */
  lemma MailTakesEffectExactly(w: World, user: int, kind: ItemKind, itemId: int, quantity: int)
    requires Shape(w)
    ensures Effective(w, MailItem(user, kind, itemId, quantity)) <==> user in w.shards[Home(w, user)].wallets && quantity > 0
  {
    var i, k := Home(w, user), InventoryKey(user, kind, itemId);
    if user in w.shards[i].wallets && quantity > 0 {
      var v := AfterMailItem(w, user, kind, itemId, quantity);
      assert Held(v, i, k) == Held(w, i, k) + quantity;
      assert k in v.shards[i].inventory;
      assert v.shards[i] != w.shards[i];
    }
  }

  /** Coins past the ledger arrive if and only if there is a wallet to hold them. */
  lemma CoinsArriveExactly(w: World, user: int, amount: nat)
    requires Shape(w) && amount > 0
    ensures var db := w.shards[Home(w, user)]; var v := Next(w, CreditCoins(user, amount));
      && (Effective(w, CreditCoins(user, amount)) <==> user in db.wallets && db.wallets[user] + amount <= 0x7fff_ffff_ffff_ffff)
      && (Effective(w, CreditCoins(user, amount)) ==>
            v.shards == w.shards[Home(w, user) := db.(wallets := db.wallets[user := db.wallets[user] + amount])])
  {
    var i, v := Home(w, user), AfterCreditCoins(w, user, amount);
    if v != w { assert v.shards[i].wallets[user] != w.shards[i].wallets[user]; }
  }

  lemma MailMovesStock(w: World, user: int, kind: ItemKind, itemId: int, quantity: int, i: nat, k: InventoryKey)
    requires Shape(w) && i < |w.shards|
    ensures var s := MailItem(user, kind, itemId, quantity); StockMoves(w, Next(w, s), i, k, Coming(w, s, i, k) - Going(w, s, i, k))
  {
    MailTakesEffectExactly(w, user, kind, itemId, quantity);
  }

  /** A theft's event takes effect if and only if the broker holds it, it crosses shards, and no ledger row exists for it. */
  lemma DeliveryTakesEffectExactly(w: World, eventId: nat, p: Payload)
    requires Shape(w)
    ensures Effective(w, DeliverStolen(eventId, p)) <==>
      && (eventId, p) in w.broker && p.Stolen? && p.ownerId > 0 && p.actorId > 0 && p.stolenAmount > 0 && p.cropId != ""
      && p.ownerId % w.wiring.shardCount != p.actorId % w.wiring.shardCount
      && LedgerKey(p.actorId, CrossShardSteal, OfEvent(eventId)) !in w.shards[Home(w, p.actorId)].ledger
  {
    if (eventId, p) in w.broker && Creditable(w, p) {
      var j, key := Home(w, p.actorId), StealLedgerKey(p.actorId, eventId);
      var v := AfterDeliverStolen(w, eventId, p);
      if key in w.shards[j].ledger { assert v.shards == w.shards; } else { assert key in v.shards[j].ledger; }
    }
  }

  lemma DeliveryMovesStock(w: World, eventId: nat, p: Payload, i: nat, k: InventoryKey)
    requires Shape(w) && i < |w.shards|
    ensures var s := DeliverStolen(eventId, p); StockMoves(w, Next(w, s), i, k, Coming(w, s, i, k) - Going(w, s, i, k))
  {
    DeliveryTakesEffectExactly(w, eventId, p);
  }

  /** An account is opened if and only if nothing of its user exists yet. */
  lemma OpeningTakesEffectExactly(w: World, user: int)
    requires Shape(w)
    ensures var db := w.shards[Home(w, user)];
      Effective(w, CreateAccount(user)) <==>
        user > 0 && user !in db.farms && user !in db.wallets && InventoryKey(user, SeedItem, 1) !in db.inventory && user !in w.logs
    ensures Effective(w, CreateAccount(user)) ==> AccountOpened(w, Next(w, CreateAccount(user)), user)
  {
    var v, i := AfterCreateAccount(w, user), Home(w, user);
    if v != w { assert user in v.shards[i].wallets; }
  }

  /** A farm of twelve empty plots in its first state, a thousand coins, and five seeds of wheat. */
  ghost predicate AccountOpened(w: World, v: World, user: int)
    requires Shape(w)
  {
    var i := Home(w, user);
    && i < |v.shards|
    && v == w.(shards := w.shards[i := v.shards[i]]) && user in v.shards[i].farms
    && v.shards[i] == w.shards[i].(
         farms := w.shards[i].farms[user := v.shards[i].farms[user]],
         wallets := w.shards[i].wallets[user := 1000],
         inventory := w.shards[i].inventory[InventoryKey(user, SeedItem, 1) := 5])
    && (var row := v.shards[i].farms[user];
        && row == FarmRow(user, 0, row.snapshot, 0, None, None)
        && (forall k :: k in row.snapshot <==> 1 <= k <= 12)
        && (forall k :: k in row.snapshot ==> row.snapshot[k] == PlotJson("", PlotStatus.Empty, 0, 0, 0, Some(0))))
  }

  lemma OpeningMovesStock(w: World, user: int, i: nat, k: InventoryKey)
    requires Shape(w) && i < |w.shards|
    ensures var s := CreateAccount(user); StockMoves(w, Next(w, s), i, k, Coming(w, s, i, k) - Going(w, s, i, k))
  {
    OpeningTakesEffectExactly(w, user);
  }

  lemma BookKeepersMoveNothing(w: World, s: Step, i: nat, k: InventoryKey)
    requires Shape(w) && i < |w.shards| && KeepsBooks(s)
    ensures StockMoves(w, Next(w, s), i, k, 0) && LedgerMoves(w, Next(w, s), i, k.user, 0)
  {
    BookKeepingStep(w, s);
    assert BooksKept(w.shards[i], Next(w, s).shards[i]);
  }

  lemma RestKeepsStock(w: World, s: Step, i: nat, k: InventoryKey)
    requires Shape(w) && i < |w.shards| && (KeepsBooks(s) || s.BuyPet? || s.CreditCoins?)
    ensures StockMoves(w, Next(w, s), i, k, Coming(w, s, i, k) - Going(w, s, i, k))
  {
    if s.BuyPet? {
      PetKeepsStock(w, s.user, s.at, s.jitter, i, k);
    } else if KeepsBooks(s) {
      BookKeepersMoveNothing(w, s, i, k);
    }
  }

  lemma PetKeepsStock(w: World, user: int, at: Time, jitter: nat, i: nat, k: InventoryKey)
    requires Shape(w) && i < |w.shards|
    ensures StockMoves(w, AfterBuyPet(w, user, at, jitter), i, k, 0)
  {
  }

  /** Every step moves every stock row by what comes less what goes. */
  lemma StepMovesStock(w: World, s: Step, i: nat, k: InventoryKey)
    requires EconomyInvariant(w) && i < |w.shards|
    ensures StockMoves(w, Next(w, s), i, k, Coming(w, s, i, k) - Going(w, s, i, k))
  {
    match s
    case CommitEconomy(cmd, eventId) => TradeMovesStock(w, cmd, eventId, i, k);
    case CommitFarm(cmd, at, eventId) => WorkMovesStock(w, cmd, at, eventId, i, k);
    case MailItem(user, kind, itemId, quantity) => MailMovesStock(w, user, kind, itemId, quantity, i, k);
    case DeliverStolen(eventId, p) => DeliveryMovesStock(w, eventId, p, i, k);
    case CreateAccount(user) => OpeningMovesStock(w, user, i, k);
    case _ => RestKeepsStock(w, s, i, k);
  }

  // ---- Ledger rows ----

  lemma RestKeepsLedger(w: World, s: Step, i: nat, user: int)
    requires Shape(w) && i < |w.shards| && !s.CommitEconomy?
    ensures LedgerMoves(w, Next(w, s), i, user, 0)
  {
    if KeepsBooks(s) {
      BookKeepersMoveNothing(w, s, i, InventoryKey(user, SeedItem, 1));
    } else if s.CommitFarm? {
      WorkTakesEffectExactly(w, s.cmd, s.at, s.eventId);
    } else if s.DeliverStolen? {
      DeliveryKeepsLedger(w, s.eventId, s.payload, i, user);
    } else if s.BuyPet? {
      PetKeepsLedger(w, s.user, s.at, s.jitter, i, user);
    } else {
      AccountStepsKeepLedger(w, s, i, user);
    }
  }

  lemma AccountStepsKeepLedger(w: World, s: Step, i: nat, user: int)
    requires Shape(w) && i < |w.shards| && (s.MailItem? || s.CreditCoins? || s.CreateAccount?)
    ensures LedgerMoves(w, Next(w, s), i, user, 0)
  {
  }

  lemma PetKeepsLedger(w: World, u: int, at: Time, jitter: nat, i: nat, user: int)
    requires Shape(w) && i < |w.shards|
    ensures LedgerMoves(w, AfterBuyPet(w, u, at, jitter), i, user, 0)
  {
  }

  lemma DeliveryKeepsLedger(w: World, eventId: nat, p: Payload, i: nat, user: int)
    requires Shape(w) && i < |w.shards|
    ensures LedgerMoves(w, AfterDeliverStolen(w, eventId, p), i, user, 0)
  {
    if (eventId, p) in w.broker && Creditable(w, p) && i == Home(w, p.actorId) {
      MapSumUpdate(w.shards[i].ledger, DeltaOf(user), StealLedgerKey(p.actorId, eventId), LedgerRow(0, 0, 0));
    }
  }

  // ---- Over runs ----

  /** What a quantity of the single steps adds up to over a run. */
  ghost function Sum(wiring: Wiring, steps: seq<Step>, f: (World, Step) -> int): int
    requires wiring.shardCount > 0
  {
    if steps == [] then 0
    else Sum(wiring, steps[..|steps| - 1], f) + f(Run(wiring, steps[..|steps| - 1]), steps[|steps| - 1])
  }

  ghost function Spent(wiring: Wiring, steps: seq<Step>, i: nat, user: int): int
    requires wiring.shardCount > 0
  {
    Sum(wiring, steps, (w, s) => SpentBy(w, s, i, user))
  }

  ghost function Earned(wiring: Wiring, steps: seq<Step>, i: nat, user: int): int
    requires wiring.shardCount > 0
  {
    Sum(wiring, steps, (w, s) => EarnedBy(w, s, i, user))
  }

  lemma {:induction false} LedgersRecordTheTrades(wiring: Wiring, steps: seq<Step>, i: nat, user: int)
    requires wiring.shardCount > 0 && i < wiring.shardCount
    ensures MapSum(Run(wiring, steps).shards[i].ledger, DeltaOf(user)) == Earned(wiring, steps, i, user) - Spent(wiring, steps, i, user)
  {
    if steps != [] {
      var front, s := steps[..|steps| - 1], steps[|steps| - 1];
      LedgersRecordTheTrades(wiring, front, i, user);
      RunKeepsEconomy(wiring, front);
      if s.CommitEconomy? {
        TradeMovesWallet(Run(wiring, front), s.cmd, s.eventId, i, user);
      } else {
        RestKeepsLedger(Run(wiring, front), s, i, user);
      }
    }
  }

  /**
   * A wallet holds a thousand coins, less two hundred for a pet, less the seed price of every piece bought,
   * plus the selling price of every crop sold, plus what mails and tasks gave.
   */
  lemma WalletsAreAccountedFor(wiring: Wiring, steps: seq<Step>, i: nat, user: int)
    requires wiring.shardCount > 0 && i < wiring.shardCount && user in Run(wiring, steps).shards[i].wallets
    ensures var db := Run(wiring, steps).shards[i];
      db.wallets[user] == 1000 - (if user in db.pets then 200 else 0)
        - Spent(wiring, steps, i, user) + Earned(wiring, steps, i, user) + CoinsGiven(wiring, steps, i, user)
  {
    BooksAlwaysBalance(wiring, steps, i);
    LedgersRecordTheTrades(wiring, steps, i, user);
  }

  ghost function Opened(wiring: Wiring, steps: seq<Step>, i: nat, k: InventoryKey): int
    requires wiring.shardCount > 0
  {
    Sum(wiring, steps, (w, s) => OpenedWith(w, s, i, k))
  }

  ghost function Bought(wiring: Wiring, steps: seq<Step>, i: nat, k: InventoryKey): int
    requires wiring.shardCount > 0
  {
    Sum(wiring, steps, (w, s) => BoughtBy(w, s, i, k))
  }

  ghost function MailedTo(wiring: Wiring, steps: seq<Step>, i: nat, k: InventoryKey): int
    requires wiring.shardCount > 0
  {
    Sum(wiring, steps, (w, s) => MailedBy(w, s, i, k))
  }

  ghost function Reaped(wiring: Wiring, steps: seq<Step>, i: nat, k: InventoryKey): int
    requires wiring.shardCount > 0
  {
    Sum(wiring, steps, (w, s) => ReapedBy(w, s, i, k))
  }

  ghost function Robbed(wiring: Wiring, steps: seq<Step>, i: nat, k: InventoryKey): int
    requires wiring.shardCount > 0
  {
    Sum(wiring, steps, (w, s) => RobbedBy(w, s, i, k))
  }

  ghost function Delivered(wiring: Wiring, steps: seq<Step>, i: nat, k: InventoryKey): int
    requires wiring.shardCount > 0
  {
    Sum(wiring, steps, (w, s) => DeliveredBy(w, s, i, k))
  }

  ghost function PlantedOut(wiring: Wiring, steps: seq<Step>, i: nat, k: InventoryKey): int
    requires wiring.shardCount > 0
  {
    Sum(wiring, steps, (w, s) => PlantedBy(w, s, i, k))
  }

  ghost function SoldOff(wiring: Wiring, steps: seq<Step>, i: nat, k: InventoryKey): int
    requires wiring.shardCount > 0
  {
    Sum(wiring, steps, (w, s) => SoldBy(w, s, i, k))
  }

  /**
   * Every stock row of every shard is what an account opened with, plus what its user bought, was mailed,
   * harvested, stole here and was delivered from elsewhere, less what they planted and sold.
   */
  lemma {:induction false} StocksAreAccountedFor(wiring: Wiring, steps: seq<Step>, i: nat, k: InventoryKey)
    requires wiring.shardCount > 0 && i < wiring.shardCount
    ensures Held(Run(wiring, steps), i, k) ==
      Opened(wiring, steps, i, k) + Bought(wiring, steps, i, k) + MailedTo(wiring, steps, i, k) + Reaped(wiring, steps, i, k)
      + Robbed(wiring, steps, i, k) + Delivered(wiring, steps, i, k) - PlantedOut(wiring, steps, i, k) - SoldOff(wiring, steps, i, k)
  {
    if steps != [] {
      var front, s := steps[..|steps| - 1], steps[|steps| - 1];
      StocksAreAccountedFor(wiring, front, i, k);
      RunKeepsEconomy(wiring, front);
      StepMovesStock(Run(wiring, front), s, i, k);
    }
  }

  lemma {:induction false} SumOfNothing(wiring: Wiring, steps: seq<Step>, f: (World, Step) -> int)
    requires wiring.shardCount > 0 && forall w, s :: f(w, s) == 0
    ensures Sum(wiring, steps, f) == 0
  {
    if steps != [] { SumOfNothing(wiring, steps[..|steps| - 1], f); }
  }

  /** Seeds are what an account opened with, plus the bought and the mailed ones, less one for each catalogue crop planted. */
  lemma SeedsAreAccountedFor(wiring: Wiring, steps: seq<Step>, i: nat, k: InventoryKey)
    requires wiring.shardCount > 0 && i < wiring.shardCount && k.kind == SeedItem
    ensures Held(Run(wiring, steps), i, k) ==
      Opened(wiring, steps, i, k) + Bought(wiring, steps, i, k) + MailedTo(wiring, steps, i, k) - PlantedOut(wiring, steps, i, k)
  {
    StocksAreAccountedFor(wiring, steps, i, k);
    SumOfNothing(wiring, steps, (w, s) => ReapedBy(w, s, i, k));
    SumOfNothing(wiring, steps, (w, s) => RobbedBy(w, s, i, k));
    SumOfNothing(wiring, steps, (w, s) => DeliveredBy(w, s, i, k));
    SumOfNothing(wiring, steps, (w, s) => SoldBy(w, s, i, k));
  }
}
