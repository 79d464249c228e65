/** Crops are conserved over every run, and every remote theft is credited exactly once. */
module CropConservation {
  import opened Prelude
  import opened FarmDomain
  import opened FarmRules
  import opened FarmTables
  import opened Cluster
  import opened FarmLog
  import Outbox

  // ---- What is counted ----

  ghost function PlotYield(item: int): (int, Plot) -> int {
    (k: int, p: Plot) => if CropIdToItemId(p.cropId) == item then p.remainingYield else 0
  }

  ghost function FarmYield(item: int): (int, FarmRow) -> int {
    (f: int, row: FarmRow) => MapSum(Unmarshal(row.snapshot), PlotYield(item))
  }

  ghost function Stock(item: int): (InventoryKey, int) -> int {
    (k: InventoryKey, q: int) => if k.kind == CropItem && k.itemId == item then q else 0
  }

  /** Growing yield plus crops in inventories, on one shard. */
  ghost function ShardAssets(item: int): Db -> int {
    (db: Db) => MapSum(db.farms, FarmYield(item)) + MapSum(db.inventory, Stock(item))
  }

  /** A theft committed on the owner's shard whose ledger row on the thief's shard is still missing. */
  ghost predicate Due(w: World, e: nat, p: Payload) {
    && Creditable(w, p)
    && |w.shards| == w.wiring.shardCount
    && StealLedgerKey(p.actorId, e) !in w.shards[Home(w, p.actorId)].ledger
  }

  ghost function DueAmount(w: World, item: int): (nat, Payload) -> int {
    (e: nat, p: Payload) => if Due(w, e, p) && CropIdToItemId(p.cropId) == item then p.stolenAmount else 0
  }

  ghost function DueOn(w: World, item: int): map<nat, Payload> -> int {
    (events: map<nat, Payload>) => MapSum(events, DueAmount(w, item))
  }

  /** All crops of one item, wherever they are: on plots, in inventories, or stolen and not yet credited. */
  ghost function Total(w: World, item: int): int {
    SeqSum(w.shards, ShardAssets(item)) + SeqSum(w.events, DueOn(w, item))
  }

  /** What a step adds to the world's crops of one item: planting, mail, and sales. */
  ghost function Minted(w: World, s: Step, item: int): int
    requires Shape(w)
  {
    if s.CommitFarm? && s.cmd.kind == Plant && FarmCommits(w, s.cmd, s.at, s.eventId) && CropIdToItemId(s.cmd.cropId) == item
    then HarvestYieldForCrop(s.cmd.cropId) else 0
  }

  ghost function Mailed(w: World, s: Step, item: int): int
    requires Shape(w)
  {
    if s.MailItem? && s.kind == CropItem && s.itemId == item && AfterMailItem(w, s.user, s.kind, s.itemId, s.quantity) != w
    then s.quantity else 0
  }

  ghost function Sold(w: World, s: Step, item: int): int
    requires Shape(w)
  {
    if s.CommitEconomy? && s.cmd.kind == SellCrop && EconomyCommits(w, s.cmd, s.eventId) && CropIdToItemId(s.cmd.cropId) == item
    then s.cmd.quantity else 0
  }

  // ---- The invariant the counting needs ----

  ghost predicate EventsDistinct(w: World) {
    forall i, j, e :: 0 <= i < j < |w.events| && e in w.events[i] ==> e !in w.events[j]
  }

  ghost predicate CommittedEvent(w: World, e: nat, p: Payload) {
    exists i :: 0 <= i < |w.events| && e in w.events[i] && w.events[i][e] == p
  }

  /** Every theft credit in a ledger belongs to a committed theft. */
  ghost predicate LedgerBacked(w: World) {
    forall j, key :: 0 <= j < |w.shards| && key in w.shards[j].ledger && key.biz == CrossShardSteal ==>
      key.id.OfEvent? && !FreshEvent(w, key.id.eventId)
  }

  ghost predicate BusesSound(w: World)
    requires Shape(w)
  {
    forall i :: 0 <= i < |w.shards| ==> Outbox.BusInvariant(BusOf(w, i), w.events[i])
  }

  ghost predicate BrokerSound(w: World) {
    forall e, p :: (e, p) in w.broker ==> CommittedEvent(w, e, p)
  }

  ghost predicate CountInvariant(w: World) {
    LogInvariant(w) && EventsDistinct(w) && LedgerBacked(w) && BusesSound(w) && BrokerSound(w)
  }

  // ---- Sums under the elementary changes ----

  lemma YieldAfterChange(plots: Plots, k: int, p: Plot, item: int)
    ensures MapSum(plots[k := p], PlotYield(item))
         == MapSum(plots, PlotYield(item)) + PlotYield(item)(k, p) - PlotYield(item)(k, PlotAt(plots, k))
  {
    MapSumUpdate(plots, PlotYield(item), k, p);
  }

  lemma StockAfterAdd(inv: map<InventoryKey, int>, k: InventoryKey, delta: int, item: int)
    ensures MapSum(AddItem(inv, k, delta), Stock(item))
         == MapSum(inv, Stock(item)) + (if k.kind == CropItem && k.itemId == item then delta else 0)
  {
    MapSumUpdate(inv, Stock(item), k, Quantity(inv, k) + delta);
  }

  /** Crops a committed farm command takes from the plots. */
  function YieldDelta(plots: Plots, cmd: Command, r: ApplyResult, item: int): int {
    match cmd.kind
    case Plant => if CropIdToItemId(cmd.cropId) == item then HarvestYieldForCrop(cmd.cropId) else 0
    case Harvest => if CropIdToItemId(r.harvestedCropId) == item then -r.harvestedYield else 0
    case PetAutoHarvest => if CropIdToItemId(r.harvestedCropId) == item then -r.harvestedYield else 0
    case StealCrop => if CropIdToItemId(r.harvestedCropId) == item then -r.stolenAmount else 0
    case _ => 0
  }

  lemma PlotsAfterCommand(plots: Plots, cmd: Command, at: Time, item: int)
    requires ValidPlots(plots) && at > 0 && Apply(plots, cmd, at).Ok?
    ensures var a := Apply(plots, cmd, at).value;
      MapSum(a.plots, PlotYield(item)) == MapSum(plots, PlotYield(item)) + YieldDelta(plots, cmd, a.result, item)
  {
    ApplyChangesOnePlot(plots, cmd, at);
    var a := Apply(plots, cmd, at).value;
    YieldAfterChange(plots, cmd.plotId, a.result.changedPlot, item);
    YieldDeltaOfOnePlot(plots, cmd, at, item);
  }

  lemma YieldDeltaOfOnePlot(plots: Plots, cmd: Command, at: Time, item: int)
    requires ValidPlots(plots) && at > 0 && Apply(plots, cmd, at).Ok?
    ensures var r := Apply(plots, cmd, at).value.result;
      PlotYield(item)(cmd.plotId, r.changedPlot) - PlotYield(item)(cmd.plotId, PlotAt(plots, cmd.plotId))
        == YieldDelta(plots, cmd, r, item)
  {
    var plot := PlotAt(plots, cmd.plotId);
    assert PlotInvariant(plot);
    match cmd.kind
    case Water => WateringKeepsTheCrop(plot, at);
    case HelpWater => WateringKeepsTheCrop(plot, at);
    case _ =>
  }

  /** What a committed farm command adds to inventories, from its own shard's point of view. */
  function StockDelta(w: Wiring, cmd: Command, r: ApplyResult, owner: int, item: int): int {
    if (cmd.kind == Harvest || cmd.kind == PetAutoHarvest) && CropIdToItemId(r.harvestedCropId) == item then r.harvestedYield
    else if cmd.kind == StealCrop && !DefersCredit(w, owner, cmd.actorUser) && CropIdToItemId(r.harvestedCropId) == item
    then r.stolenAmount
    else 0
  }

  /** The report of a harvest or a theft: positive amounts, and a theft names a catalogue crop. */
  lemma ReportedAmounts(plots: Plots, cmd: Command, at: Time)
    requires ValidPlots(plots) && at > 0 && Apply(plots, cmd, at).Ok?
    ensures var r := Apply(plots, cmd, at).value.result;
      && (cmd.kind == Harvest || cmd.kind == PetAutoHarvest ==> r.harvestedYield >= 1)
      && (cmd.kind == StealCrop ==> r.stolenAmount >= 1 && r.harvestedCropId != "")
      && (r.eventType == FarmStolen <==> cmd.kind == StealCrop)
  {
    var plot := PlotAt(plots, cmd.plotId);
    assert PlotInvariant(plot);
    assert HarvestYieldForCrop("") == 1;
  }

  lemma InventoryAfterCommand(inv: map<InventoryKey, int>, w: Wiring, cmd: Command, r: ApplyResult, owner: int, item: int)
    requires cmd.kind == Harvest || cmd.kind == PetAutoHarvest ==> r.harvestedYield >= 1
    ensures MapSum(InventoryAfter(inv, w, cmd, r, owner), Stock(item))
         == MapSum(inv, Stock(item)) + StockDelta(w, cmd, r, owner, item)
  {
    if cmd.kind == Plant {
      StockAfterAdd(inv, InventoryKey(cmd.actorUser, SeedItem, CropIdToItemId(cmd.cropId)), -1, item);
    } else if cmd.kind == Harvest || cmd.kind == PetAutoHarvest {
      StockAfterAdd(inv, InventoryKey(owner, CropItem, CropIdToItemId(r.harvestedCropId)), r.harvestedYield, item);
    } else if cmd.kind == StealCrop {
      StockAfterAdd(inv, InventoryKey(cmd.actorUser, CropItem, CropIdToItemId(r.harvestedCropId)), r.stolenAmount, item);
    }
  }

  /** Rows that kept their plots keep their yield. */
  lemma QuietYield(farms: map<int, FarmRow>, farms': map<int, FarmRow>, item: int)
    requires farms.Keys == farms'.Keys
    requires forall f :: f in farms ==> QuietRow(farms[f], farms'[f])
    ensures MapSum(farms, FarmYield(item)) == MapSum(farms', FarmYield(item))
  {
    forall f | f in farms ensures FarmYield(item)(f, farms[f]) == FarmYield(item)(f, farms'[f]) {
      assert QuietRow(farms[f], farms'[f]);
    }
    MapSumPointwise(farms, farms', FarmYield(item));
  }

  // ---- A farm command ----

  lemma CommitFarmAssets(w: World, v: World, cmd: Command, at: Time, eventId: nat, done: Committed, item: int)
    requires LogInvariant(w) && FarmCommitted(w, v, cmd, at, eventId, done)
    ensures var row := w.shards[Home(w, cmd.farmId)].farms[cmd.farmId];
      var r := Apply(Unmarshal(row.snapshot), cmd, at).value.result;
      ShardAssets(item)(done.db) == ShardAssets(item)(w.shards[Home(w, cmd.farmId)])
        + YieldDelta(Unmarshal(row.snapshot), cmd, r, item) + StockDelta(w.wiring, cmd, r, row.ownerId, item)
  {
    var db := w.shards[Home(w, cmd.farmId)];
    var row := db.farms[cmd.farmId];
    var plots := Unmarshal(row.snapshot);
    assert Histories(db.farms, w.logs);
    assert FarmHistory(cmd.farmId, row, LogOf(w, cmd.farmId));
    var a := Apply(plots, cmd, at).value;
    PlotsAfterCommand(plots, cmd, at, item);
    ApplyKeepsValid(plots, cmd, at);
    SnapshotRoundTrip(a.plots);
    var row' := RowAfter(row, cmd, a.plots, at);
    MapSumUpdate(db.farms, FarmYield(item), cmd.farmId, row');
    ReportedAmounts(plots, cmd, at);
    InventoryAfterCommand(db.inventory, w.wiring, cmd, a.result, row.ownerId, item);
  }

  /** The payload of a committed theft is creditable exactly when the committer deferred its credit. */
  lemma PayloadCreditable(w: World, cmd: Command, r: ApplyResult, owner: int, version: int, at: Time)
    requires r.eventType == FarmStolen <==> cmd.kind == StealCrop
    requires cmd.kind == StealCrop ==> r.stolenAmount >= 1 && r.harvestedCropId != ""
    requires w.wiring.shardCount > 0
    ensures var p := BuildPayload(cmd, r, owner, version, at);
      && (Creditable(w, p) <==> cmd.kind == StealCrop && DefersCredit(w.wiring, owner, cmd.actorUser))
      && (cmd.kind == StealCrop ==> p.Stolen? && p.cropId == r.harvestedCropId && p.stolenAmount == r.stolenAmount)
  {
  }

  /** The event a farm command commits is due exactly when its credit was deferred. */
  lemma NewEventDue(w: World, v: World, cmd: Command, at: Time, eventId: nat, done: Committed)
    requires CountInvariant(w) && FarmCommitted(w, v, cmd, at, eventId, done)
    requires forall j :: 0 <= j < |w.shards| ==> SameStealLedger(w.shards[j].ledger, v.shards[j].ledger)
    ensures var row := w.shards[Home(w, cmd.farmId)].farms[cmd.farmId];
      var r := Apply(Unmarshal(row.snapshot), cmd, at).value.result;
      var p := done.db.outbox[eventId].payload;
      && (Due(v, eventId, p) <==> cmd.kind == StealCrop && DefersCredit(w.wiring, row.ownerId, cmd.actorUser))
      && (cmd.kind == StealCrop ==> p.Stolen? && p.cropId == r.harvestedCropId && p.stolenAmount == r.stolenAmount)
  {
    CommittedPayload(w, v, cmd, at, eventId, done);
    var p := done.db.outbox[eventId].payload;
    if Creditable(w, p) {
      NoLedgerRowForFreshEvent(w, v, p.actorId, eventId);
    }
  }

  lemma CommittedPayload(w: World, v: World, cmd: Command, at: Time, eventId: nat, done: Committed)
    requires LogInvariant(w) && FarmCommitted(w, v, cmd, at, eventId, done)
    ensures var row := w.shards[Home(w, cmd.farmId)].farms[cmd.farmId];
      var r := Apply(Unmarshal(row.snapshot), cmd, at).value.result;
      var p := done.db.outbox[eventId].payload;
      && (Creditable(w, p) <==> cmd.kind == StealCrop && DefersCredit(w.wiring, row.ownerId, cmd.actorUser))
      && (cmd.kind == StealCrop ==> p.Stolen? && p.cropId == r.harvestedCropId && p.stolenAmount == r.stolenAmount)
  {
    var i := Home(w, cmd.farmId);
    var row := w.shards[i].farms[cmd.farmId];
    assert Histories(w.shards[i].farms, w.logs);
    assert FarmHistory(cmd.farmId, row, LogOf(w, cmd.farmId));
    ReportedAmounts(Unmarshal(row.snapshot), cmd, at);
    PayloadCreditable(w, cmd, Apply(Unmarshal(row.snapshot), cmd, at).value.result, row.ownerId, row.version + 1, at);
  }

  lemma NoLedgerRowForFreshEvent(w: World, v: World, actor: int, eventId: nat)
    requires Shape(w) && LedgerBacked(w) && FreshEvent(w, eventId) && |v.shards| == |w.shards| && v.wiring == w.wiring
    requires forall j :: 0 <= j < |w.shards| ==> SameStealLedger(w.shards[j].ledger, v.shards[j].ledger)
    ensures StealLedgerKey(actor, eventId) !in v.shards[Home(w, actor)].ledger
  {
    var j := Home(w, actor);
    var key := StealLedgerKey(actor, eventId);
    assert key.biz == CrossShardSteal && key.id.eventId == eventId;
    assert SameStealLedger(w.shards[j].ledger, v.shards[j].ledger);
  }

  lemma DueUnchanged(w: World, v: World, item: int)
    requires |w.shards| == |v.shards| && w.wiring == v.wiring && w.wiring.shardCount > 0 && w.events == v.events
    requires forall j :: 0 <= j < |w.shards| ==> SameStealLedger(w.shards[j].ledger, v.shards[j].ledger)
    ensures SeqSum(w.events, DueOn(w, item)) == SeqSum(v.events, DueOn(v, item))
  {
    forall i | 0 <= i < |w.events| ensures DueOn(w, item)(w.events[i]) == DueOn(v, item)(v.events[i]) {
      DueSumUnchanged(w, v, w.events[i], item);
    }
    SeqSumSame(w.events, v.events, DueOn(w, item), DueOn(v, item));
  }

  ghost predicate SameStealLedger(ledger: map<LedgerKey, LedgerRow>, ledger': map<LedgerKey, LedgerRow>) {
    forall key: LedgerKey :: key.biz == CrossShardSteal ==> (key in ledger <==> key in ledger')
  }

  lemma DueSumUnchanged(w: World, v: World, events: map<nat, Payload>, item: int)
    requires |w.shards| == |v.shards| && w.wiring == v.wiring && w.wiring.shardCount > 0
    requires forall j :: 0 <= j < |w.shards| ==> SameStealLedger(w.shards[j].ledger, v.shards[j].ledger)
    ensures MapSum(events, DueAmount(w, item)) == MapSum(events, DueAmount(v, item))
  {
    forall e | e in events ensures DueAmount(w, item)(e, events[e]) == DueAmount(v, item)(e, events[e]) {
      var p := events[e];
      if Creditable(w, p) && |w.shards| == w.wiring.shardCount {
        var j := Home(w, p.actorId);
        assert SameStealLedger(w.shards[j].ledger, v.shards[j].ledger);
        assert StealLedgerKey(p.actorId, e).biz == CrossShardSteal;
      }
    }
    MapSumSame(events, DueAmount(w, item), DueAmount(v, item));
  }

  lemma DueAfterCommit(w: World, v: World, i: nat, eventId: nat, p: Payload, item: int)
    requires |w.shards| == |v.shards| && w.wiring == v.wiring && w.wiring.shardCount > 0
    requires forall j :: 0 <= j < |w.shards| ==> SameStealLedger(w.shards[j].ledger, v.shards[j].ledger)
    requires i < |w.events| == |v.events| && eventId !in w.events[i]
    requires v.events == w.events[i := v.events[i]] && v.events[i] == w.events[i][eventId := p]
    ensures SeqSum(v.events, DueOn(v, item)) == SeqSum(w.events, DueOn(w, item)) + DueAmount(v, item)(eventId, p)
  {
    forall j | 0 <= j < |w.events| ensures DueOn(w, item)(w.events[j]) == DueOn(v, item)(w.events[j]) {
      DueSumUnchanged(w, v, w.events[j], item);
    }
    SeqSumSame(w.events, w.events, DueOn(w, item), DueOn(v, item));
    SeqSumUpdate(w.events, DueOn(v, item), i, v.events[i]);
    MapSumUpdate(w.events[i], DueAmount(v, item), eventId, p);
  }

  lemma CommitFarmConserves(w: World, v: World, cmd: Command, at: Time, eventId: nat, done: Committed, item: int)
    requires CountInvariant(w) && FarmCommitted(w, v, cmd, at, eventId, done)
    ensures Total(v, item) == Total(w, item)
      + if cmd.kind == Plant && CropIdToItemId(cmd.cropId) == item then HarvestYieldForCrop(cmd.cropId) else 0
  {
    var i := Home(w, cmd.farmId);
    var row := w.shards[i].farms[cmd.farmId];
    var p := done.db.outbox[eventId].payload;
    CommitFarmAssets(w, v, cmd, at, eventId, done, item);
    SeqSumUpdate(w.shards, ShardAssets(item), i, done.db);
    CommitFarmDue(w, v, cmd, at, eventId, done, item);
    DeltasCancel(w, v, cmd, Apply(Unmarshal(row.snapshot), cmd, at).value.result, Unmarshal(row.snapshot), row.ownerId,
                 eventId, p, item);
  }

  lemma CommitFarmDue(w: World, v: World, cmd: Command, at: Time, eventId: nat, done: Committed, item: int)
    requires CountInvariant(w) && FarmCommitted(w, v, cmd, at, eventId, done)
    ensures var row := w.shards[Home(w, cmd.farmId)].farms[cmd.farmId];
      var r := Apply(Unmarshal(row.snapshot), cmd, at).value.result;
      var p := done.db.outbox[eventId].payload;
      && (Due(v, eventId, p) <==> cmd.kind == StealCrop && DefersCredit(w.wiring, row.ownerId, cmd.actorUser))
      && (cmd.kind == StealCrop ==> p.Stolen? && p.cropId == r.harvestedCropId && p.stolenAmount == r.stolenAmount)
      && SeqSum(v.events, DueOn(v, item)) == SeqSum(w.events, DueOn(w, item)) + DueAmount(v, item)(eventId, p)
  {
    forall j | 0 <= j < |w.shards| ensures SameStealLedger(w.shards[j].ledger, v.shards[j].ledger) {}
    NewEventDue(w, v, cmd, at, eventId, done);
    assert FreshEvent(w, eventId);
    DueAfterCommit(w, v, Home(w, cmd.farmId), eventId, done.db.outbox[eventId].payload, item);
  }

  /** What leaves the plots arrives in an inventory or becomes due; only planting adds. */
  lemma DeltasCancel(w: World, v: World, cmd: Command, r: ApplyResult, plots: Plots, owner: int, eventId: nat, p: Payload, item: int)
    requires Due(v, eventId, p) <==> cmd.kind == StealCrop && DefersCredit(w.wiring, owner, cmd.actorUser)
    requires cmd.kind == StealCrop ==> p.Stolen? && p.cropId == r.harvestedCropId && p.stolenAmount == r.stolenAmount
    ensures YieldDelta(plots, cmd, r, item) + StockDelta(w.wiring, cmd, r, owner, item) + DueAmount(v, item)(eventId, p)
         == if cmd.kind == Plant && CropIdToItemId(cmd.cropId) == item then HarvestYieldForCrop(cmd.cropId) else 0
  {
  }
}
