/** The remaining steps of the cluster against the crop count, and the theorems over whole runs. */
module CropTheorems {
  import opened Prelude
  import opened FarmDomain
  import opened FarmRules
  import opened FarmTables
  import opened Cluster
  import opened FarmLog
  import opened CropConservation
  import Outbox

  // ---- Conservation, step by step ----

  /** A quiet step moves exactly what its inventory change says. */
  lemma QuietConserves(w: World, v: World, i: nat, item: int)
    requires Shape(w) && Quiet(w, v, i) && SameStealLedger(w.shards[i].ledger, v.shards[i].ledger)
    ensures Total(v, item) == Total(w, item)
      + MapSum(v.shards[i].inventory, Stock(item)) - MapSum(w.shards[i].inventory, Stock(item))
  {
    QuietYield(w.shards[i].farms, v.shards[i].farms, item);
    SeqSumUpdate(w.shards, ShardAssets(item), i, v.shards[i]);
    forall j | 0 <= j < |w.shards| ensures SameStealLedger(w.shards[j].ledger, v.shards[j].ledger) {}
    DueUnchanged(w, v, item);
  }

  predicate AssetNeutral(s: Step) {
    || s.Tick? || s.AskEconomy? || s.Advance? || s.ReapReceipts? || s.Relay? || s.SetFriends?
    || s.BuyPet? || s.SetAutoHarvest? || s.ClaimPet? || s.RenewLease? || s.PushPet? || s.CreditCoins?
  }

  predicate Neutral(w: World, v: World, i: nat) {
    && i < |w.shards| == |v.shards|
    && v.shards[i].inventory == w.shards[i].inventory && v.shards[i].ledger == w.shards[i].ledger
  }

  predicate PetStep(s: Step) { s.BuyPet? || s.SetAutoHarvest? || s.ClaimPet? || s.RenewLease? || s.PushPet? }

  lemma NeutralStep(w: World, s: Step)
    requires Shape(w) && AssetNeutral(s)
    ensures Neutral(w, Next(w, s), Touched(w, s))
  {
    if PetStep(s) { PetStepIsNeutral(w, s); } else { OtherStepIsNeutral(w, s); }
  }

  lemma PetStepIsNeutral(w: World, s: Step)
    requires Shape(w) && PetStep(s)
    ensures Neutral(w, Next(w, s), Touched(w, s))
  {
    match s
    case BuyPet(user, at, jitter) => BuyPetIsNeutral(w, user, at, jitter);
    case SetAutoHarvest(user, enabled, jitter) => SwitchIsNeutral(w, user, enabled, jitter);
    case ClaimPet(f, token, at, ttl) => ClaimIsNeutral(w, f, token, at, ttl);
    case RenewLease(token, at, ttl) => ScannerIsNeutral(w, token, at, ttl);
    case PushPet(token, at) => ScannerIsNeutral(w, token, at, 0);
  }

  lemma OtherStepIsNeutral(w: World, s: Step)
    requires Shape(w) && AssetNeutral(s) && !PetStep(s)
    ensures Neutral(w, Next(w, s), Touched(w, s))
  {
    match s
    case Relay(shard, step) => RelayIsNeutral(w, shard, step);
    case Advance(f, epoch) => AdvanceIsNeutral(w, f, epoch);
    case _ =>
  }

  lemma BuyPetIsNeutral(w: World, user: int, at: Time, jitter: nat)
    requires Shape(w)
    ensures Neutral(w, AfterBuyPet(w, user, at, jitter), Home(w, user))
  {
  }

  lemma SwitchIsNeutral(w: World, user: int, enabled: bool, jitter: nat)
    requires Shape(w)
    ensures Neutral(w, AfterSetAutoHarvest(w, user, enabled, jitter), Home(w, user))
  {
  }

  lemma ClaimIsNeutral(w: World, f: int, token: nat, at: Time, ttl: Time)
    requires Shape(w)
    ensures Neutral(w, AfterClaimPet(w, f, token, at, ttl), Home(w, f))
  {
  }

  lemma ScannerIsNeutral(w: World, token: nat, at: Time, ttl: Time)
    requires Shape(w)
    ensures Neutral(w, AfterRenewLease(w, token, at, ttl), Touched(w, RenewLease(token, at, ttl)))
    ensures Neutral(w, AfterPushPet(w, token, at), Touched(w, PushPet(token, at)))
  {
  }

  lemma RelayIsNeutral(w: World, shard: nat, s: Outbox.BusStep<Payload>)
    requires Shape(w)
    ensures Neutral(w, AfterRelay(w, shard, s), Touched(w, Relay(shard, s)))
  {
  }

  lemma AdvanceIsNeutral(w: World, f: int, epoch: int)
    requires Shape(w)
    ensures Neutral(w, AfterAdvance(w, f, epoch), Home(w, f))
  {
  }

  lemma CommitEconomyConserves(w: World, cmd: Command, eventId: nat, item: int)
    requires Shape(w)
    ensures var s := CommitEconomy(cmd, eventId);
      Total(Next(w, s), item) == Total(w, item) - Sold(w, s, item)
  {
    var i := Home(w, cmd.farmId);
    var v := AfterCommitEconomy(w, cmd, eventId);
    CommitEconomyIsQuiet(w, cmd, eventId);
    if EconomyCommits(w, cmd, eventId) {
      EconomyInventory(w.shards[i], cmd, eventId, item);
      QuietConserves(w, v, i, item);
    }
  }

  lemma EconomyInventory(db: Db, cmd: Command, eventId: nat, item: int)
    requires Economic(cmd.kind) && FinishEconomic(db, cmd, eventId).Ok?
    ensures var db' := FinishEconomic(db, cmd, eventId).value.db;
      && SameStealLedger(db.ledger, db'.ledger)
      && MapSum(db'.inventory, Stock(item)) == MapSum(db.inventory, Stock(item))
         - if cmd.kind == SellCrop && CropIdToItemId(cmd.cropId) == item then cmd.quantity else 0
  {
    var id := CropIdToItemId(cmd.cropId);
    if cmd.kind == PurchaseSeed {
      StockAfterAdd(db.inventory, InventoryKey(cmd.actorUser, SeedItem, id), cmd.quantity, item);
    } else {
      StockAfterAdd(db.inventory, InventoryKey(cmd.actorUser, CropItem, id), -cmd.quantity, item);
    }
  }

  lemma MailConserves(w: World, user: int, kind: ItemKind, itemId: int, quantity: int, item: int)
    requires Shape(w)
    ensures var s := MailItem(user, kind, itemId, quantity);
      Total(Next(w, s), item) == Total(w, item) + Mailed(w, s, item)
  {
    var i := Home(w, user);
    var v := AfterMailItem(w, user, kind, itemId, quantity);
    var k := InventoryKey(user, kind, itemId);
    MailIsQuiet(w, user, kind, itemId, quantity);
    if user in w.shards[i].wallets && quantity > 0 {
      StockAfterAdd(w.shards[i].inventory, k, quantity, item);
      QuietConserves(w, v, i, item);
      assert v.shards[i].inventory[k] != Quantity(w.shards[i].inventory, k);
      assert v != w by {
        if k !in w.shards[i].inventory {
          assert k in v.shards[i].inventory;
        }
      }
    }
  }

  lemma CreateAccountConserves(w: World, user: int, item: int)
    requires Shape(w)
    ensures Total(AfterCreateAccount(w, user), item) == Total(w, item)
  {
    var v := AfterCreateAccount(w, user);
    if v != w {
      var i := Home(w, user);
      var db := w.shards[i];
      var row := FarmRow(user, 0, Marshal(INIT_PLOTS), 0, None, None);
      SnapshotRoundTrip(INIT_PLOTS);
      MapSumZero(INIT_PLOTS, PlotYield(item));
      MapSumUpdate(db.farms, FarmYield(item), user, row);
      MapSumUpdate(db.inventory, Stock(item), InventoryKey(user, SeedItem, 1), INIT_SEEDS);
      SeqSumUpdate(w.shards, ShardAssets(item), i, v.shards[i]);
      forall j | 0 <= j < |w.shards| ensures SameStealLedger(w.shards[j].ledger, v.shards[j].ledger) {}
      DueUnchanged(w, v, item);
    }
  }

  /** A delivery either repeats a credit, and changes nothing, or turns a due theft into stock. */
  lemma DeliverConserves(w: World, eventId: nat, p: Payload, item: int)
    requires CountInvariant(w)
    ensures Total(AfterDeliverStolen(w, eventId, p), item) == Total(w, item)
  {
    var v := AfterDeliverStolen(w, eventId, p);
    if (eventId, p) in w.broker && Creditable(w, p) {
      var j := Home(w, p.actorId);
      var key := StealLedgerKey(p.actorId, eventId);
      var db := w.shards[j];
      if key in db.ledger {
        assert Put(w, j, db).shards == w.shards;
      } else {
        assert CommittedEvent(w, eventId, p);
        var i :| 0 <= i < |w.events| && eventId in w.events[i] && w.events[i][eventId] == p;
        FirstCreditConserves(w, eventId, p, i, item);
      }
    }
  }

  lemma FirstCreditConserves(w: World, eventId: nat, p: Payload, i: nat, item: int)
    requires Shape(w) && EventsDistinct(w) && (eventId, p) in w.broker
    requires i < |w.events| && eventId in w.events[i] && w.events[i][eventId] == p
    requires Creditable(w, p) && StealLedgerKey(p.actorId, eventId) !in w.shards[Home(w, p.actorId)].ledger
    ensures Total(AfterDeliverStolen(w, eventId, p), item) == Total(w, item)
  {
    var v := AfterDeliverStolen(w, eventId, p);
    var j := Home(w, p.actorId);
    StockAfterAdd(w.shards[j].inventory, InventoryKey(p.actorId, CropItem, CropIdToItemId(p.cropId)), p.stolenAmount, item);
    SeqSumUpdate(w.shards, ShardAssets(item), j, v.shards[j]);
    DueAfterCredit(w, v, eventId, p, i, item);
  }

  lemma DueAfterCredit(w: World, v: World, eventId: nat, p: Payload, i: nat, item: int)
    requires Shape(w) && EventsDistinct(w)
    requires i < |w.events| && eventId in w.events[i] && w.events[i][eventId] == p
    requires Creditable(w, p) && StealLedgerKey(p.actorId, eventId) !in w.shards[Home(w, p.actorId)].ledger
    requires v == Put(w, Home(w, p.actorId), FinishCredit(w.shards[Home(w, p.actorId)], p.actorId, p.cropId, p.stolenAmount, eventId))
    ensures SeqSum(v.events, DueOn(v, item)) == SeqSum(w.events, DueOn(w, item))
      - if CropIdToItemId(p.cropId) == item then p.stolenAmount else 0
  {
    forall e: nat, q: Payload | e != eventId ensures DueAmount(w, item)(e, q) == DueAmount(v, item)(e, q) {}
    forall j | 0 <= j < |w.events| && j != i ensures DueOn(w, item)(w.events[j]) == DueOn(v, item)(w.events[j]) {
      assert eventId !in w.events[j];
      MapSumSame(w.events[j], DueAmount(w, item), DueAmount(v, item));
    }
    MapSumOneKey(w.events[i], DueAmount(w, item), DueAmount(v, item), eventId);
    SeqSumOneIndex(w.events, DueOn(w, item), DueOn(v, item), i);
  }

  lemma StepConserves(w: World, s: Step, item: int)
    requires CountInvariant(w)
    ensures Total(Next(w, s), item) == Total(w, item) + Minted(w, s, item) + Mailed(w, s, item) - Sold(w, s, item)
  {
    match s
    case CommitFarm(cmd, at, eventId) => CommitFarmStepConserves(w, cmd, at, eventId, item);
    case CommitEconomy(cmd, eventId) => CommitEconomyConserves(w, cmd, eventId, item);
    case MailItem(user, kind, itemId, quantity) => MailConserves(w, user, kind, itemId, quantity, item);
    case CreateAccount(user) => CreateAccountConserves(w, user, item);
    case DeliverStolen(eventId, p) => DeliverConserves(w, eventId, p, item);
    case AskFarm(cmd) => AskFarmConserves(w, cmd, item);
    case _ => NeutralStepConserves(w, s, item);
  }

  lemma CommitFarmStepConserves(w: World, cmd: Command, at: Time, eventId: nat, item: int)
    requires CountInvariant(w)
    ensures Total(AfterCommitFarm(w, cmd, at, eventId), item) == Total(w, item) + Minted(w, CommitFarm(cmd, at, eventId), item)
  {
    if FarmCommits(w, cmd, at, eventId) {
      var done := CommitFarmCommits(w, cmd, at, eventId);
      CommitFarmConserves(w, AfterCommitFarm(w, cmd, at, eventId), cmd, at, eventId, done, item);
    }
  }

  lemma NeutralStepConserves(w: World, s: Step, item: int)
    requires Shape(w) && AssetNeutral(s)
    ensures Total(Next(w, s), item) == Total(w, item)
  {
    StepIsQuiet(w, s);
    NeutralStep(w, s);
    QuietConserves(w, Next(w, s), Touched(w, s), item);
  }

  lemma AskFarmConserves(w: World, cmd: Command, item: int)
    requires Shape(w)
    ensures Total(AfterAskFarm(w, cmd), item) == Total(w, item)
  {
    DueUnchanged(w, AfterAskFarm(w, cmd), item);
  }

  // ---- The invariant, step by step ----

  lemma BrokerGrows(b: Outbox.Bus<Payload>, broker: set<(nat, Payload)>, events: map<nat, Payload>)
    requires Outbox.BusInvariant(b, events) && b.broker <= broker
    ensures Outbox.BusInvariant(b.(broker := broker), events)
  {
  }

  /** A step that writes no event and no theft ledger row keeps the counting invariant. */
  lemma QuietKeepsCount(w: World, v: World, i: nat)
    requires CountInvariant(w) && Quiet(w, v, i) && LogInvariant(v)
    requires SameStealLedger(w.shards[i].ledger, v.shards[i].ledger)
    requires v.shards[i].outbox == w.shards[i].outbox && v.broker == w.broker && v.memory == w.memory
    ensures CountInvariant(v)
  {
    forall j | 0 <= j < |v.shards| ensures Outbox.BusInvariant(BusOf(v, j), v.events[j]) {
      assert Outbox.BusInvariant(BusOf(w, j), w.events[j]);
      assert BusOf(v, j) == BusOf(w, j);
    }
    forall j, key | 0 <= j < |v.shards| && key in v.shards[j].ledger && key.biz == CrossShardSteal
      ensures key.id.OfEvent? && !FreshEvent(v, key.id.eventId)
    {
      assert SameStealLedger(w.shards[j].ledger, v.shards[j].ledger);
      assert key in w.shards[j].ledger;
      assert !FreshEvent(w, key.id.eventId);
    }
    forall e, p | (e, p) in v.broker ensures CommittedEvent(v, e, p) {
      assert CommittedEvent(w, e, p);
    }
  }

  lemma CommitFarmKeepsCount(w: World, v: World, cmd: Command, at: Time, eventId: nat, done: Committed)
    requires CountInvariant(w) && FarmCommitted(w, v, cmd, at, eventId, done)
    ensures CountInvariant(v)
  {
    CommitFarmKeepsLog(w, v, cmd, at, eventId, done);
    assert BusesSound(v) by {
      forall j | 0 <= j < |v.shards| ensures Outbox.BusInvariant(BusOf(v, j), v.events[j]) {
        CommitFarmKeepsBus(w, v, cmd, at, eventId, done, j);
      }
    }
    CommitFarmKeepsEvents(w, v, cmd, at, eventId, done);
  }

  lemma CommitFarmKeepsEvents(w: World, v: World, cmd: Command, at: Time, eventId: nat, done: Committed)
    requires EventsDistinct(w) && LedgerBacked(w) && BrokerSound(w) && FarmCommitted(w, v, cmd, at, eventId, done)
    ensures EventsDistinct(v) && LedgerBacked(v) && BrokerSound(v)
  {
    forall j | 0 <= j < |v.shards| ensures v.shards[j].ledger == w.shards[j].ledger {}
    EventsOnlyGrow(w, v, Home(w, cmd.farmId), eventId, done.db.outbox[eventId].payload);
  }

  /** One more event on one shard: identifiers stay distinct, and what was committed stays committed. */
  lemma EventsOnlyGrow(w: World, v: World, i: nat, eventId: nat, p: Payload)
    requires EventsDistinct(w) && LedgerBacked(w) && BrokerSound(w) && FreshEvent(w, eventId)
    requires i < |w.events| == |v.events| && v.events == w.events[i := v.events[i]] && v.events[i] == w.events[i][eventId := p]
    requires |v.shards| == |w.shards| && forall j :: 0 <= j < |v.shards| ==> v.shards[j].ledger == w.shards[j].ledger
    requires v.broker == w.broker
    ensures EventsDistinct(v) && LedgerBacked(v) && BrokerSound(v)
  {
    forall j, key | 0 <= j < |v.shards| && key in v.shards[j].ledger && key.biz == CrossShardSteal
      ensures key.id.OfEvent? && !FreshEvent(v, key.id.eventId)
    {
      assert key in w.shards[j].ledger;
      assert !FreshEvent(w, key.id.eventId);
      var m :| 0 <= m < |w.events| && key.id.eventId in w.events[m];
      assert key.id.eventId in v.events[m];
    }
    forall e, p | (e, p) in v.broker ensures CommittedEvent(v, e, p) {
      assert CommittedEvent(w, e, p);
      var m :| 0 <= m < |w.events| && e in w.events[m] && w.events[m][e] == p;
      assert e in v.events[m] && v.events[m][e] == p;
    }
  }

  lemma CommitFarmKeepsBus(w: World, v: World, cmd: Command, at: Time, eventId: nat, done: Committed, j: nat)
    requires Shape(w) && Shape(v) && FarmCommitted(w, v, cmd, at, eventId, done) && j < |v.shards|
    requires Outbox.BusInvariant(BusOf(w, j), w.events[j])
    ensures Outbox.BusInvariant(BusOf(v, j), v.events[j])
  {
    if j == Home(w, cmd.farmId) {
      InsertKeepsBus(w, v, cmd, at, eventId, done);
    } else {
      assert BusOf(v, j) == BusOf(w, j);
    }
  }

  lemma InsertKeepsBus(w: World, v: World, cmd: Command, at: Time, eventId: nat, done: Committed)
    requires Shape(w) && Shape(v) && FarmCommitted(w, v, cmd, at, eventId, done)
    requires var i := Home(w, cmd.farmId); Outbox.BusInvariant(BusOf(w, i), w.events[i])
    ensures var i := Home(w, cmd.farmId); Outbox.BusInvariant(BusOf(v, i), v.events[i])
  {
    var i := Home(w, cmd.farmId);
    var row := done.db.outbox[eventId];
    var s := Outbox.Insert(eventId, row.outboxId, row.payload, at);
    assert eventId !in w.events[i];
    Outbox.BusStepKeepsInvariant(BusOf(w, i), s, w.events[i]);
    assert BusOf(v, i) == Outbox.BusNext(BusOf(w, i), s);
  }

  lemma RelayKeepsCount(w: World, shard: nat, s: Outbox.BusStep<Payload>)
    requires CountInvariant(w)
    ensures CountInvariant(AfterRelay(w, shard, s))
  {
    var v := AfterRelay(w, shard, s);
    RelayIsQuiet(w, shard, s);
    QuietKeepsLog(w, v, Touched(w, Relay(shard, s)));
    if shard < |w.shards| && !s.Insert? {
      assert Outbox.BusInvariant(BusOf(w, shard), w.events[shard]);
      Outbox.BusStepKeepsInvariant(BusOf(w, shard), s, w.events[shard]);
      RelayBroker(w, shard, s);
      forall j | 0 <= j < |v.shards| ensures Outbox.BusInvariant(BusOf(v, j), v.events[j]) {
        if j == shard {
          assert BusOf(v, j) == Outbox.BusNext(BusOf(w, j), s);
        } else {
          assert Outbox.BusInvariant(BusOf(w, j), w.events[j]);
          BrokerGrows(BusOf(w, j), v.broker, w.events[j]);
          assert BusOf(v, j) == BusOf(w, j).(broker := v.broker);
        }
      }
      forall j, key | 0 <= j < |v.shards| && key in v.shards[j].ledger && key.biz == CrossShardSteal
        ensures key.id.OfEvent? && !FreshEvent(v, key.id.eventId)
      {
        assert key in w.shards[j].ledger;
        assert !FreshEvent(w, key.id.eventId);
      }
    }
  }

  lemma RelayBroker(w: World, shard: nat, s: Outbox.BusStep<Payload>)
    requires CountInvariant(w) && shard < |w.shards| && !s.Insert?
    ensures BrokerSound(AfterRelay(w, shard, s)) && w.broker <= AfterRelay(w, shard, s).broker
  {
    var v := AfterRelay(w, shard, s);
    forall e, p | (e, p) in v.broker ensures CommittedEvent(v, e, p) {
      if (e, p) in w.broker {
        assert CommittedEvent(w, e, p);
      } else {
        assert Outbox.BusInvariant(BusOf(w, shard), w.events[shard]);
        assert e in w.events[shard] && w.events[shard][e] == p;
      }
    }
  }

  lemma DeliverKeepsCount(w: World, eventId: nat, p: Payload)
    requires CountInvariant(w)
    ensures CountInvariant(AfterDeliverStolen(w, eventId, p))
  {
    var v := AfterDeliverStolen(w, eventId, p);
    DeliverIsQuiet(w, eventId, p);
    QuietKeepsLog(w, v, Home(w, p.actorId));
    if (eventId, p) in w.broker && Creditable(w, p) {
      forall j | 0 <= j < |v.shards| ensures Outbox.BusInvariant(BusOf(v, j), v.events[j]) {
        assert Outbox.BusInvariant(BusOf(w, j), w.events[j]);
        assert BusOf(v, j) == BusOf(w, j);
      }
      assert CommittedEvent(w, eventId, p);
      assert !FreshEvent(w, eventId);
      forall j, key | 0 <= j < |v.shards| && key in v.shards[j].ledger && key.biz == CrossShardSteal
        ensures key.id.OfEvent? && !FreshEvent(v, key.id.eventId)
      {
        if key != StealLedgerKey(p.actorId, eventId) {
          assert key in w.shards[j].ledger;
          assert !FreshEvent(w, key.id.eventId);
        }
      }
      forall e, q | (e, q) in v.broker ensures CommittedEvent(v, e, q) {
        assert CommittedEvent(w, e, q);
      }
    }
  }

  lemma CreateAccountKeepsCount(w: World, user: int)
    requires CountInvariant(w)
    ensures CountInvariant(AfterCreateAccount(w, user))
  {
    var v := AfterCreateAccount(w, user);
    CreateAccountKeepsLog(w, user);
    forall j | 0 <= j < |v.shards| ensures Outbox.BusInvariant(BusOf(v, j), v.events[j]) {
      assert Outbox.BusInvariant(BusOf(w, j), w.events[j]);
      assert BusOf(v, j) == BusOf(w, j);
    }
    forall j, key | 0 <= j < |v.shards| && key in v.shards[j].ledger && key.biz == CrossShardSteal
      ensures key.id.OfEvent? && !FreshEvent(v, key.id.eventId)
    {
      assert key in w.shards[j].ledger;
      assert !FreshEvent(w, key.id.eventId);
    }
    forall e, q | (e, q) in v.broker ensures CommittedEvent(v, e, q) {
      assert CommittedEvent(w, e, q);
    }
  }

  predicate LeavesBusAlone(s: Step) { !WritesHistory(s) && !s.Relay? && !s.DeliverStolen? }

  /** Shard i kept its outbox and its theft credits, and the relays and the broker kept everything. */
  ghost predicate BusSame(w: World, v: World, i: nat) {
    && |v.shards| == |w.shards| && i < |w.shards|
    && v.shards[i].outbox == w.shards[i].outbox && v.broker == w.broker && v.memory == w.memory
    && SameStealLedger(w.shards[i].ledger, v.shards[i].ledger)
  }

  lemma BusUntouched(w: World, s: Step)
    requires Shape(w) && LeavesBusAlone(s)
    ensures BusSame(w, Next(w, s), Touched(w, s))
  {
    match s
    case CommitEconomy(cmd, eventId) => EconomyLeavesBusAlone(w, cmd, eventId);
    case BuyPet(user, at, jitter) => BuyPetLeavesBusAlone(w, user, at, jitter);
    case SetAutoHarvest(user, enabled, jitter) => SetAutoHarvestLeavesBusAlone(w, user, enabled, jitter);
    case ClaimPet(f, token, at, ttl) => ClaimLeavesBusAlone(w, f, token, at, ttl);
    case RenewLease(token, at, ttl) => ScannerLeavesBusAlone(w, token, at, ttl);
    case PushPet(token, at) => ScannerLeavesBusAlone(w, token, at, 0);
    case _ => PlainStepLeavesBusAlone(w, s);
  }

  lemma BuyPetLeavesBusAlone(w: World, user: int, at: Time, jitter: nat)
    requires Shape(w)
    ensures BusSame(w, AfterBuyPet(w, user, at, jitter), Home(w, user))
  {
  }

  lemma SetAutoHarvestLeavesBusAlone(w: World, user: int, enabled: bool, jitter: nat)
    requires Shape(w)
    ensures BusSame(w, AfterSetAutoHarvest(w, user, enabled, jitter), Home(w, user))
  {
  }

  lemma ClaimLeavesBusAlone(w: World, f: int, token: nat, at: Time, ttl: Time)
    requires Shape(w)
    ensures BusSame(w, AfterClaimPet(w, f, token, at, ttl), Home(w, f))
  {
  }

  lemma ScannerLeavesBusAlone(w: World, token: nat, at: Time, ttl: Time)
    requires Shape(w)
    ensures BusSame(w, AfterRenewLease(w, token, at, ttl), Touched(w, RenewLease(token, at, ttl)))
    ensures BusSame(w, AfterPushPet(w, token, at), Touched(w, PushPet(token, at)))
  {
  }

  lemma PlainStepLeavesBusAlone(w: World, s: Step)
    requires Shape(w)
    requires s.Tick? || s.AskEconomy? || s.Advance? || s.ReapReceipts? || s.SetFriends? || s.MailItem? || s.CreditCoins?
    ensures BusSame(w, Next(w, s), Touched(w, s))
  {
    match s
    case Advance(f, epoch) => AdvanceLeavesBusAlone(w, f, epoch);
    case MailItem(user, kind, itemId, quantity) => MailLeavesBusAlone(w, user, kind, itemId, quantity);
    case CreditCoins(user, amount) => CreditLeavesBusAlone(w, user, amount);
    case _ =>
  }

  lemma CreditLeavesBusAlone(w: World, user: int, amount: nat)
    requires Shape(w)
    ensures BusSame(w, AfterCreditCoins(w, user, amount), Home(w, user))
  {
  }

  lemma AdvanceLeavesBusAlone(w: World, f: int, epoch: int)
    requires Shape(w)
    ensures BusSame(w, AfterAdvance(w, f, epoch), Home(w, f))
  {
  }

  lemma MailLeavesBusAlone(w: World, user: int, kind: ItemKind, itemId: int, quantity: int)
    requires Shape(w)
    ensures BusSame(w, AfterMailItem(w, user, kind, itemId, quantity), Home(w, user))
  {
  }

  lemma EconomyLeavesBusAlone(w: World, cmd: Command, eventId: nat)
    requires Shape(w)
    ensures BusSame(w, AfterCommitEconomy(w, cmd, eventId), Home(w, cmd.farmId))
  {
    if EconomyCommits(w, cmd, eventId) {
      PostedFrame(w.shards[Home(w, cmd.farmId)], cmd, eventId);
      EconomyInventory(w.shards[Home(w, cmd.farmId)], cmd, eventId, 0);
    }
  }

  lemma StepKeepsCount(w: World, s: Step)
    requires CountInvariant(w)
    ensures CountInvariant(Next(w, s))
  {
    match s
    case CommitFarm(cmd, at, eventId) => CommitFarmStepKeepsCount(w, cmd, at, eventId);
    case CreateAccount(user) => CreateAccountKeepsCount(w, user);
    case AskFarm(cmd) => AskFarmKeepsCount(w, cmd);
    case Relay(shard, step) => RelayKeepsCount(w, shard, step);
    case DeliverStolen(eventId, p) => DeliverKeepsCount(w, eventId, p);
    case _ => LeavingTheBusKeepsCount(w, s);
  }

  lemma CommitFarmStepKeepsCount(w: World, cmd: Command, at: Time, eventId: nat)
    requires CountInvariant(w)
    ensures CountInvariant(AfterCommitFarm(w, cmd, at, eventId))
  {
    if FarmCommits(w, cmd, at, eventId) {
      var done := CommitFarmCommits(w, cmd, at, eventId);
      CommitFarmKeepsCount(w, AfterCommitFarm(w, cmd, at, eventId), cmd, at, eventId, done);
    }
  }

  lemma LeavingTheBusKeepsCount(w: World, s: Step)
    requires CountInvariant(w) && LeavesBusAlone(s)
    ensures CountInvariant(Next(w, s))
  {
    StepIsQuiet(w, s);
    StepKeepsLog(w, s);
    BusUntouched(w, s);
    QuietKeepsCount(w, Next(w, s), Touched(w, s));
  }

  lemma AskFarmKeepsCount(w: World, cmd: Command)
    requires CountInvariant(w)
    ensures CountInvariant(AfterAskFarm(w, cmd))
  {
    var v := AfterAskFarm(w, cmd);
    AskFarmKeepsLog(w, cmd);
    forall j | 0 <= j < |v.shards| ensures Outbox.BusInvariant(BusOf(v, j), v.events[j]) {
      assert Outbox.BusInvariant(BusOf(w, j), w.events[j]);
      assert BusOf(v, j) == BusOf(w, j);
    }
    forall j, key | 0 <= j < |v.shards| && key in v.shards[j].ledger && key.biz == CrossShardSteal
      ensures key.id.OfEvent? && !FreshEvent(v, key.id.eventId)
    {
      assert !FreshEvent(w, key.id.eventId);
    }
    forall e, q | (e, q) in v.broker ensures CommittedEvent(v, e, q) {
      assert CommittedEvent(w, e, q);
    }
  }

  lemma {:induction false} RunKeepsCount(wiring: Wiring, steps: seq<Step>)
    requires wiring.shardCount > 0
    ensures CountInvariant(Run(wiring, steps))
  {
    if steps != [] {
      RunKeepsCount(wiring, steps[..|steps| - 1]);
      StepKeepsCount(Run(wiring, steps[..|steps| - 1]), steps[|steps| - 1]);
    }
  }

  // ---- The theorems ----

  ghost function TotalMinted(wiring: Wiring, steps: seq<Step>, item: int): int
    requires wiring.shardCount > 0
  {
    if steps == [] then 0
    else
      var front := steps[..|steps| - 1];
      TotalMinted(wiring, front, item) + Minted(Run(wiring, front), steps[|steps| - 1], item)
  }

  ghost function TotalMailed(wiring: Wiring, steps: seq<Step>, item: int): int
    requires wiring.shardCount > 0
  {
    if steps == [] then 0
    else
      var front := steps[..|steps| - 1];
      TotalMailed(wiring, front, item) + Mailed(Run(wiring, front), steps[|steps| - 1], item)
  }

  ghost function TotalSold(wiring: Wiring, steps: seq<Step>, item: int): int
    requires wiring.shardCount > 0
  {
    if steps == [] then 0
    else
      var front := steps[..|steps| - 1];
      TotalSold(wiring, front, item) + Sold(Run(wiring, front), steps[|steps| - 1], item)
  }

  /**
   * After every run, for every item: the yields left on plots, plus the crops in all inventories, plus
   * the thefts not yet credited, are what was planted plus what came by mail minus what was sold.
   */
  lemma {:induction false} CropsAreConserved(wiring: Wiring, steps: seq<Step>, item: int)
    requires wiring.shardCount > 0
    ensures Total(Run(wiring, steps), item)
         == TotalMinted(wiring, steps, item) + TotalMailed(wiring, steps, item) - TotalSold(wiring, steps, item)
  {
    if steps == [] {
      var w := Start(wiring);
      SeqSumZero(w.shards, ShardAssets(item));
      SeqSumZero(w.events, DueOn(w, item));
    } else {
      var front := steps[..|steps| - 1];
      CropsAreConserved(wiring, front, item);
      RunKeepsCount(wiring, front);
      StepConserves(Run(wiring, front), steps[|steps| - 1], item);
    }
  }

  ghost predicate Credited(w: World, e: nat, actor: int)
    requires Shape(w)
  {
    StealLedgerKey(actor, e) in w.shards[Home(w, actor)].ledger
  }

  /** Of the given theft, v has a ledger row if w had one, or if this step is what credited it. */
  ghost predicate CreditStep(w: World, v: World, e: nat, actor: int, delivers: bool) {
    && Shape(w) && Shape(v)
    && (Credited(w, e, actor) ==> Credited(v, e, actor) && !delivers)
    && (!Credited(w, e, actor) ==> (Credited(v, e, actor) <==> delivers))
  }

  ghost predicate Delivers(w: World, s: Step, e: nat, actor: int)
    requires Shape(w)
  {
    s.DeliverStolen? && s.eventId == e && s.payload.Stolen? && s.payload.actorId == actor && Next(w, s).shards != w.shards
  }

  /** How many deliveries of one event changed the thief's inventory. */
  ghost function Credits(wiring: Wiring, steps: seq<Step>, e: nat, actor: int): nat
    requires wiring.shardCount > 0
  {
    if steps == [] then 0
    else
      var front := steps[..|steps| - 1];
      var s := steps[|steps| - 1];
      Credits(wiring, front, e, actor)
        + if Delivers(Run(wiring, front), s, e, actor) then 1 else 0
  }

  /** A step adds the ledger row of a theft exactly when it is the delivery that credits it. */
  lemma StepCredits(w: World, s: Step, e: nat, actor: int)
    requires Shape(w)
    ensures CreditStep(w, Next(w, s), e, actor, Delivers(w, s, e, actor))
  {
    StepKeepsShape(w, s);
    match s
    case CommitFarm(cmd, at, eventId) =>
      if FarmCommits(w, cmd, at, eventId) {
        var done := CommitFarmCommits(w, cmd, at, eventId);
        FarmCommitCreditsNothing(w, Next(w, s), cmd, at, eventId, done, e, actor);
      }
    case CreateAccount(user) =>
    case AskFarm(cmd) =>
    case DeliverStolen(eventId, p) => DeliveryCredits(w, eventId, p, e, actor);
    case Relay(shard, step) => RelayCreditsNothing(w, shard, step, e, actor);
    case _ => OtherStepCreditsNothing(w, s, e, actor);
  }

  lemma FarmCommitCreditsNothing(w: World, v: World, cmd: Command, at: Time, eventId: nat, done: Committed, e: nat, actor: int)
    requires FarmCommitted(w, v, cmd, at, eventId, done) && Shape(v)
    ensures CreditStep(w, v, e, actor, false)
  {
  }

  lemma RelayCreditsNothing(w: World, shard: nat, step: Outbox.BusStep<Payload>, e: nat, actor: int)
    requires Shape(w) && Shape(AfterRelay(w, shard, step))
    ensures CreditStep(w, AfterRelay(w, shard, step), e, actor, false)
  {
    RelayIsQuiet(w, shard, step);
    RelayIsNeutral(w, shard, step);
  }

  lemma OtherStepCreditsNothing(w: World, s: Step, e: nat, actor: int)
    requires Shape(w) && Shape(Next(w, s)) && LeavesBusAlone(s)
    ensures CreditStep(w, Next(w, s), e, actor, false)
  {
    assert StealLedgerKey(actor, e).biz == CrossShardSteal;
    StepIsQuiet(w, s);
    BusUntouched(w, s);
  }

  lemma DeliveryCredits(w: World, eventId: nat, p: Payload, e: nat, actor: int)
    requires Shape(w) && Shape(AfterDeliverStolen(w, eventId, p))
    ensures CreditStep(w, AfterDeliverStolen(w, eventId, p), e, actor, Delivers(w, DeliverStolen(eventId, p), e, actor))
  {
    var v := AfterDeliverStolen(w, eventId, p);
    if (eventId, p) in w.broker && Creditable(w, p) {
      var j := Home(w, p.actorId);
      var key := StealLedgerKey(p.actorId, eventId);
      if key in w.shards[j].ledger {
        assert v.shards == w.shards;
      } else {
        assert key in v.shards[j].ledger && v.shards[j] != w.shards[j];
      }
    }
  }

  /**
   * Whatever the relay duplicates, the broker redelivers and the reaper forgets: one theft is credited
   * at most once, and it has been credited exactly when its ledger row exists.
   */
  lemma {:induction false} TheftIsCreditedOnce(wiring: Wiring, steps: seq<Step>, e: nat, actor: int)
    requires wiring.shardCount > 0
    ensures Credits(wiring, steps, e, actor) == if Credited(Run(wiring, steps), e, actor) then 1 else 0
  {
    if steps != [] {
      var front := steps[..|steps| - 1];
      TheftIsCreditedOnce(wiring, front, e, actor);
      StepCredits(Run(wiring, front), steps[|steps| - 1], e, actor);
    }
  }

  /** Only the owner's transaction pays a same-shard theft: delivering its event changes nothing. */
  lemma SameShardTheftIsNotCreditedAgain(w: World, eventId: nat, p: Payload)
    requires Shape(w) && p.Stolen? && p.ownerId > 0 && p.actorId > 0
    requires Home(w, p.ownerId) == Home(w, p.actorId)
    ensures Next(w, DeliverStolen(eventId, p)) == w
  {
  }

  /**
   * No event of the farm vanishes: what any shard ever committed is still in its outbox or was
   * accepted by the broker, and every theft in the broker is a committed one with its amount.
   */
  lemma NoFarmEventVanishes(wiring: Wiring, steps: seq<Step>)
    requires wiring.shardCount > 0
    ensures var w := Run(wiring, steps);
      && (forall i, e :: 0 <= i < |w.events| && e in w.events[i] ==>
            (e in w.shards[i].outbox && w.shards[i].outbox[e].payload == w.events[i][e]) || (e, w.events[i][e]) in w.broker)
      && (forall e, p :: (e, p) in w.broker ==> CommittedEvent(w, e, p))
  {
    RunKeepsCount(wiring, steps);
    var w := Run(wiring, steps);
    forall i, e | 0 <= i < |w.events| && e in w.events[i]
      ensures (e in w.shards[i].outbox && w.shards[i].outbox[e].payload == w.events[i][e]) || (e, w.events[i][e]) in w.broker
    {
      assert Outbox.BusInvariant(BusOf(w, i), w.events[i]);
    }
  }
}
