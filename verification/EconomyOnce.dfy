/** Economic commands over every run: each key takes effect once, and the books always balance. */
module EconomyOnce {
  import opened Prelude
  import opened FarmDomain
  import opened FarmRules
  import opened FarmTables
  import opened Cluster
  import opened FarmLog
  import opened CropConservation
  import Outbox

  // ---- Retrying whole transactions ----

  const MAX_ATTEMPTS := 3

  datatype Outcome<T> = Success(value: T) | Failure(retryable: bool, error: Error) | Cancelled

  /**
   * Runs whole attempts, at most three: it stops at the first success, at the first failure that is not
   * worth retrying, at the third failure, or when the caller gives up while it waits.
   */
  method RetryValue<T(0)>(attempt: nat -> Outcome<T>, givesUpAfter: nat -> bool) returns (r: Outcome<T>, tried: nat)
    requires forall k :: !attempt(k).Cancelled?
    ensures 1 <= tried <= 3
    ensures forall k :: 1 <= k < tried ==> attempt(k).Failure? && attempt(k).retryable && !givesUpAfter(k)
    ensures r == attempt(tried) || (r == Cancelled && attempt(tried).Failure? && givesUpAfter(tried))
    ensures attempt(tried).Failure? && attempt(tried).retryable && tried < 3 ==> givesUpAfter(tried) && r == Cancelled
  {
    tried := 1;
    while true
      invariant 1 <= tried <= MAX_ATTEMPTS
      invariant forall k :: 1 <= k < tried ==> attempt(k).Failure? && attempt(k).retryable && !givesUpAfter(k)
      decreases MAX_ATTEMPTS - tried
    {
      r := attempt(tried);
      if r.Success? {
        return;
      }
      if tried == MAX_ATTEMPTS || !r.retryable {
        return;
      }
      if givesUpAfter(tried) {
        return Cancelled, tried;
      }
      tried := tried + 1;
    }
  }

  // ---- The ledger never forgets ----

  ghost predicate LedgerGrows(db: Db, db': Db) { forall k :: k in db.ledger ==> k in db'.ledger && db'.ledger[k] == db.ledger[k] }

  /** Reply (i, key, balance) was given for a ledger row that carries this balance. */
  ghost predicate RepliesBacked(w: World) {
    forall i, key, balance :: (i, key, balance) in w.economyReplies ==>
      i < |w.shards| && key in w.shards[i].ledger && w.shards[i].ledger[key].balanceAfter == balance
  }

  /** Steps that change no wallet, no ledger row, no stock, and no one's having a pet. */
  ghost predicate BooksKept(db: Db, db': Db) {
    db'.wallets == db.wallets && db'.ledger == db.ledger && db'.inventory == db.inventory && db'.pets.Keys == db.pets.Keys
  }

  ghost predicate AllBooksKept(w: World, v: World) {
    |v.shards| == |w.shards| && v.credits == w.credits && forall i :: 0 <= i < |w.shards| ==> BooksKept(w.shards[i], v.shards[i])
  }

  predicate KeepsBooks(s: Step) {
    || s.Tick? || s.AskFarm? || s.AskEconomy? || s.Advance? || s.ReapReceipts? || s.Relay? || s.SetFriends?
    || s.SetAutoHarvest? || s.ClaimPet? || s.RenewLease? || s.PushPet?
  }

  lemma BookKeepingStep(w: World, s: Step)
    requires Shape(w) && KeepsBooks(s)
    ensures AllBooksKept(w, Next(w, s))
  {
    match s
    case SetAutoHarvest(user, enabled, jitter) => SwitchKeepsBooks(w, user, enabled, jitter);
    case ClaimPet(f, token, at, ttl) => ClaimKeepsBooks(w, f, token, at, ttl);
    case RenewLease(token, at, ttl) => ScannerKeepsBooks(w, token, at, ttl);
    case PushPet(token, at) => ScannerKeepsBooks(w, token, at, 0);
    case Relay(shard, step) => RelayKeepsBooks(w, shard, step);
    case _ => PlainStepKeepsBooks(w, s);
  }

  lemma PlainStepKeepsBooks(w: World, s: Step)
    requires Shape(w) && (s.Tick? || s.AskFarm? || s.AskEconomy? || s.Advance? || s.ReapReceipts? || s.SetFriends?)
    ensures AllBooksKept(w, Next(w, s))
  {
    match s
    case Advance(f, epoch) => AdvanceKeepsBooks(w, f, epoch);
    case ReapReceipts(shard, keys) => ReapingKeepsBooks(w, shard, keys);
    case SetFriends(shard, friendships, edges) =>
    case _ =>
  }

  lemma AdvanceKeepsBooks(w: World, f: int, epoch: int)
    requires Shape(w)
    ensures AllBooksKept(w, AfterAdvance(w, f, epoch))
  {
  }

  lemma ReapingKeepsBooks(w: World, shard: nat, keys: set<ReceiptKey>)
    requires Shape(w)
    ensures AllBooksKept(w, AfterReapReceipts(w, shard, keys))
  {
  }

  lemma SwitchKeepsBooks(w: World, user: int, enabled: bool, jitter: nat)
    requires Shape(w)
    ensures AllBooksKept(w, AfterSetAutoHarvest(w, user, enabled, jitter))
  {
  }

  lemma ClaimKeepsBooks(w: World, f: int, token: nat, at: Time, ttl: Time)
    requires Shape(w)
    ensures AllBooksKept(w, AfterClaimPet(w, f, token, at, ttl))
  {
  }

  lemma ScannerKeepsBooks(w: World, token: nat, at: Time, ttl: Time)
    requires Shape(w)
    ensures AllBooksKept(w, AfterRenewLease(w, token, at, ttl))
    ensures AllBooksKept(w, AfterPushPet(w, token, at))
  {
  }

  lemma RelayKeepsBooks(w: World, shard: nat, s: Outbox.BusStep<Payload>)
    requires Shape(w)
    ensures AllBooksKept(w, AfterRelay(w, shard, s))
  {
  }

  // ---- One shard's books ----

  /** What one ledger row moved in user u's wallet. */
  ghost function DeltaOf(u: int): (LedgerKey, LedgerRow) -> int {
    (k: LedgerKey, r: LedgerRow) => if k.user == u then r.balanceDelta else 0
  }

  /**
   * A wallet holds the initial coins, less a pet's price, plus every delta its ledger rows record, plus
   * what mails and task rewards added past the ledger.
   */
  ghost predicate WalletSound(db: Db, credits: map<int, int>, u: int) {
    if u in db.wallets then
      && 0 <= db.wallets[u] <= MAX_INT64
      && db.wallets[u] == INIT_COINS - (if u in db.pets then PET_PRICE else 0) + MapSum(db.ledger, DeltaOf(u)) + CreditedTo(credits, u)
    else
      u !in db.pets && MapSum(db.ledger, DeltaOf(u)) == 0 && CreditedTo(credits, u) == 0
  }

  ghost predicate BooksSound(db: Db, credits: map<int, int>) {
    && (forall u {:trigger WalletSound(db, credits, u)} :: WalletSound(db, credits, u))
    && (forall k :: k in db.inventory ==> db.inventory[k] >= 0)
  }

  lemma PostedIsExact(balance: int, delta: int)
    requires 0 <= balance <= MAX_INT64 && InInt64(delta)
    ensures Wrap64(balance + delta) >= 0 ==> Wrap64(balance + delta) == balance + delta
  {
  }

  /** A new ledger row of user u, and u's wallet moved by what it records. */
  lemma NewRowKeepsWallets(db: Db, db': Db, credits: map<int, int>, u: int, key: LedgerKey, row: LedgerRow)
    requires forall x {:trigger WalletSound(db, credits, x)} :: WalletSound(db, credits, x)
    requires key !in db.ledger && key.user == u && db'.ledger == db.ledger[key := row] && db'.pets.Keys == db.pets.Keys
    requires if u in db.wallets
             then db'.wallets == db.wallets[u := db.wallets[u] + row.balanceDelta] && 0 <= db'.wallets[u] <= MAX_INT64
             else db'.wallets == db.wallets && row.balanceDelta == 0
    ensures forall x :: WalletSound(db', credits, x)
  {
    forall x ensures WalletSound(db', credits, x) {
      assert WalletSound(db, credits, x);
      MapSumUpdate(db.ledger, DeltaOf(x), key, row);
    }
  }

  /** A committed purchase or sale: one new ledger row, the wallet moved by its delta, no stock below zero. */
  lemma EconomyKeepsBooks(db: Db, credits: map<int, int>, cmd: Command, eventId: nat)
    requires BooksSound(db, credits) && Economic(cmd.kind) && QuantityAllowed(cmd.quantity) && FinishEconomic(db, cmd, eventId).Ok?
    ensures BooksSound(FinishEconomic(db, cmd, eventId).value.db, credits)
  {
    var done := FinishEconomic(db, cmd, eventId).value;
    var key, u := EconomyKey(cmd), cmd.actorUser;
    assert WalletSound(db, credits, u);
    EconomyRow(db, cmd, eventId);
    PostedIsExact(db.wallets[u], done.db.ledger[key].balanceDelta);
    NewRowKeepsWallets(db, done.db, credits, u, key, done.db.ledger[key]);
    EconomyKeepsStock(db, cmd, eventId);
  }

  lemma EconomyRow(db: Db, cmd: Command, eventId: nat)
    requires Economic(cmd.kind) && QuantityAllowed(cmd.quantity) && FinishEconomic(db, cmd, eventId).Ok?
    ensures var done := FinishEconomic(db, cmd, eventId).value; var key := EconomyKey(cmd); var u := cmd.actorUser;
      && u in db.wallets && key !in db.ledger && key in done.db.ledger
      && done.db.ledger == db.ledger[key := done.db.ledger[key]]
      && done.db.pets == db.pets
      && (var row := done.db.ledger[key];
          && InInt64(row.balanceDelta) && row.balanceAfter == Wrap64(db.wallets[u] + row.balanceDelta) >= 0
          && done.db.wallets == db.wallets[u := row.balanceAfter] && done.result.coinBalance == row.balanceAfter)
  {
    var cfg := GetCropConfig(cmd.cropId).value;
    CatalogueDeltas(cmd.cropId, cmd.quantity);
  }

  /** Every price of the catalogue times every legal quantity is far inside int64. */
  lemma CatalogueDeltas(cropId: string, quantity: int)
    requires GetCropConfig(cropId).Ok? && QuantityAllowed(quantity)
    ensures var cfg := GetCropConfig(cropId).value;
      && 0 <= cfg.seedPrice * quantity <= 1_000_000_000 && 0 <= cfg.sellPrice * quantity <= 1_000_000_000
  {
    var cfg := GetCropConfig(cropId).value;
    SmallProduct(cfg.seedPrice, quantity);
    SmallProduct(cfg.sellPrice, quantity);
  }

  lemma SmallProduct(price: int, quantity: int)
    requires 0 <= price <= 100_000 && 1 <= quantity <= 10_000
    ensures 0 <= price * quantity <= 1_000_000_000
  {
    SmallerFactor(price, 100_000, quantity);
  }

  lemma SmallerFactor(a: nat, b: nat, c: nat)
    requires a <= b
    ensures a * c <= b * c
  {
    assert b * c - a * c == (b - a) * c;
  }

  lemma EconomyKeepsStock(db: Db, cmd: Command, eventId: nat)
    requires Economic(cmd.kind) && QuantityAllowed(cmd.quantity) && FinishEconomic(db, cmd, eventId).Ok?
    requires forall k :: k in db.inventory ==> db.inventory[k] >= 0
    ensures var inv := FinishEconomic(db, cmd, eventId).value.db.inventory; forall k :: k in inv ==> inv[k] >= 0
  {
  }

  // ---- Every step ----

  ghost predicate EconomyInvariant(w: World) {
    && LogInvariant(w) && RepliesBacked(w)
    && (forall i {:trigger w.shards[i]} :: 0 <= i < |w.shards| ==> BooksSound(w.shards[i], w.credits[i]))
  }

  ghost predicate EconomyStep(w: World, v: World) {
    && |v.shards| == |w.shards| == |w.credits| == |v.credits| && v.wiring == w.wiring
    && (forall i {:trigger v.shards[i]} :: 0 <= i < |w.shards| ==> BooksSound(v.shards[i], v.credits[i]) && LedgerGrows(w.shards[i], v.shards[i]))
  }

  lemma EconomyStepKeepsInvariant(w: World, v: World)
    requires EconomyInvariant(w) && EconomyStep(w, v) && LogInvariant(v)
    requires forall i, key, balance :: (i, key, balance) in v.economyReplies && (i, key, balance) !in w.economyReplies ==>
               i < |v.shards| && key in v.shards[i].ledger && v.shards[i].ledger[key].balanceAfter == balance
    ensures EconomyInvariant(v)
  {
    assert RepliesBacked(w);
    forall i, key, balance | (i, key, balance) in v.economyReplies
      ensures i < |v.shards| && key in v.shards[i].ledger && v.shards[i].ledger[key].balanceAfter == balance
    {
      if (i, key, balance) in w.economyReplies {
        assert LedgerGrows(w.shards[i], v.shards[i]);
      }
    }
  }

  lemma KeptBooksStaySound(w: World, s: Step)
    requires EconomyInvariant(w) && KeepsBooks(s)
    ensures EconomyStep(w, Next(w, s))
  {
    var v := Next(w, s);
    BookKeepingStep(w, s);
    StepKeepsShape(w, s);
    forall i | 0 <= i < |w.shards| ensures BooksSound(v.shards[i], v.credits[i]) && LedgerGrows(w.shards[i], v.shards[i]) {
      assert BooksKept(w.shards[i], v.shards[i]);
      forall u ensures WalletSound(v.shards[i], v.credits[i], u) { assert WalletSound(w.shards[i], w.credits[i], u); }
    }
  }

  lemma CommitFarmKeepsBooks(w: World, v: World, cmd: Command, at: Time, eventId: nat, done: Committed)
    requires EconomyInvariant(w) && FarmCommitted(w, v, cmd, at, eventId, done)
    ensures EconomyStep(w, v)
  {
    var i := Home(w, cmd.farmId);
    var db := w.shards[i];
    var row := db.farms[cmd.farmId];
    assert Histories(db.farms, w.logs);
    assert FarmHistory(cmd.farmId, row, LogOf(w, cmd.farmId));
    ReportedAmounts(Unmarshal(row.snapshot), cmd, at);
    StockStaysNonNegative(db.inventory, w.wiring, cmd, Apply(Unmarshal(row.snapshot), cmd, at).value.result, row.ownerId);
    forall u ensures WalletSound(done.db, w.credits[i], u) { assert WalletSound(db, w.credits[i], u); }
    forall j | 0 <= j < |w.shards| ensures BooksSound(v.shards[j], v.credits[j]) && LedgerGrows(w.shards[j], v.shards[j]) {
      assert BooksSound(w.shards[j], w.credits[j]);
    }
  }

  lemma StockStaysNonNegative(inv: map<InventoryKey, int>, w: Wiring, cmd: Command, r: ApplyResult, owner: int)
    requires forall k :: k in inv ==> inv[k] >= 0
    requires SeedAvailable(inv, cmd)
    requires cmd.kind == Harvest || cmd.kind == PetAutoHarvest ==> r.harvestedYield >= 1
    requires cmd.kind == StealCrop ==> r.stolenAmount >= 1
    ensures var after := InventoryAfter(inv, w, cmd, r, owner); forall k :: k in after ==> after[k] >= 0
  {
  }

  lemma CommitEconomyStep(w: World, cmd: Command, eventId: nat)
    requires EconomyInvariant(w)
    ensures EconomyInvariant(AfterCommitEconomy(w, cmd, eventId))
  {
    if EconomyCommits(w, cmd, eventId) {
      CommitEconomyMovesBooks(w, cmd, eventId);
      StepKeepsLog(w, CommitEconomy(cmd, eventId));
      EconomyStepKeepsInvariant(w, AfterCommitEconomy(w, cmd, eventId));
    }
  }

  lemma CommitEconomyMovesBooks(w: World, cmd: Command, eventId: nat)
    requires EconomyInvariant(w) && EconomyCommits(w, cmd, eventId)
    ensures var v := AfterCommitEconomy(w, cmd, eventId); var i := Home(w, cmd.farmId); var key := EconomyKey(cmd);
      && EconomyStep(w, v) && key in v.shards[i].ledger
      && v.economyReplies == w.economyReplies + {(i, key, v.shards[i].ledger[key].balanceAfter)}
  {
    var i := Home(w, cmd.farmId);
    var v := AfterCommitEconomy(w, cmd, eventId);
    assert BooksSound(w.shards[i], w.credits[i]);
    EconomyKeepsBooks(w.shards[i], w.credits[i], cmd, eventId);
    EconomyRow(w.shards[i], cmd, eventId);
    forall j | 0 <= j < |w.shards| ensures BooksSound(v.shards[j], v.credits[j]) && LedgerGrows(w.shards[j], v.shards[j]) {
      assert BooksSound(w.shards[j], w.credits[j]);
    }
  }

  lemma AskEconomyStep(w: World, cmd: Command)
    requires EconomyInvariant(w)
    ensures EconomyInvariant(AfterAskEconomy(w, cmd))
  {
    StepKeepsLog(w, AskEconomy(cmd));
    KeptBooksStaySound(w, AskEconomy(cmd));
    EconomyStepKeepsInvariant(w, AfterAskEconomy(w, cmd));
  }

  lemma CreditKeepsBooks(db: Db, credits: map<int, int>, actor: int, cropId: string, quantity: int, eventId: nat)
    requires BooksSound(db, credits) && quantity > 0
    ensures var after := FinishCredit(db, actor, cropId, quantity, eventId);
      BooksSound(after, credits) && LedgerGrows(db, after) && after.wallets == db.wallets
  {
    var key := StealLedgerKey(actor, eventId);
    if key !in db.ledger {
      var after := FinishCredit(db, actor, cropId, quantity, eventId);
      assert WalletSound(db, credits, actor);
      CreditWritesOneRow(db, actor, cropId, quantity, eventId);
      NewRowKeepsWallets(db, after, credits, actor, key, LedgerRow(0, 0, 0));
    }
  }

  lemma CreditWritesOneRow(db: Db, actor: int, cropId: string, quantity: int, eventId: nat)
    requires StealLedgerKey(actor, eventId) !in db.ledger && quantity > 0
    requires forall k :: k in db.inventory ==> db.inventory[k] >= 0
    ensures var after := FinishCredit(db, actor, cropId, quantity, eventId);
      && after.ledger == db.ledger[StealLedgerKey(actor, eventId) := LedgerRow(0, 0, 0)]
      && after.wallets == db.wallets && after.pets == db.pets
      && forall k :: k in after.inventory ==> after.inventory[k] >= 0
  {
  }

  lemma DeliverStep(w: World, eventId: nat, p: Payload)
    requires EconomyInvariant(w)
    ensures EconomyStep(w, AfterDeliverStolen(w, eventId, p))
  {
    var v := AfterDeliverStolen(w, eventId, p);
    if (eventId, p) in w.broker && Creditable(w, p) {
      CreditKeepsBooks(w.shards[Home(w, p.actorId)], w.credits[Home(w, p.actorId)], p.actorId, p.cropId, p.stolenAmount, eventId);
    }
    forall j | 0 <= j < |w.shards| ensures BooksSound(v.shards[j], v.credits[j]) && LedgerGrows(w.shards[j], v.shards[j]) {
      assert BooksSound(w.shards[j], w.credits[j]);
    }
  }

  lemma MailStep(w: World, user: int, kind: ItemKind, itemId: int, quantity: int)
    requires EconomyInvariant(w)
    ensures EconomyStep(w, AfterMailItem(w, user, kind, itemId, quantity))
  {
    var v := AfterMailItem(w, user, kind, itemId, quantity);
    forall j | 0 <= j < |w.shards| ensures BooksSound(v.shards[j], v.credits[j]) && LedgerGrows(w.shards[j], v.shards[j]) {
      assert BooksSound(w.shards[j], w.credits[j]);
      forall u ensures WalletSound(v.shards[j], v.credits[j], u) { assert WalletSound(w.shards[j], w.credits[j], u); }
    }
  }

  lemma BuyPetKeepsBooks(db: Db, credits: map<int, int>, user: int, now: Time, jitter: nat)
    requires BooksSound(db, credits) && FinishBuyPet(db, user, now, jitter).Ok?
    ensures BooksSound(FinishBuyPet(db, user, now, jitter).value, credits)
  {
    forall u ensures WalletSound(FinishBuyPet(db, user, now, jitter).value, credits, u) { assert WalletSound(db, credits, u); }
  }

  lemma BuyPetStep(w: World, user: int, at: Time, jitter: nat)
    requires EconomyInvariant(w)
    ensures EconomyStep(w, AfterBuyPet(w, user, at, jitter))
  {
    var v := AfterBuyPet(w, user, at, jitter);
    var i := Home(w, user);
    assert BooksSound(w.shards[i], w.credits[i]);
    if FinishBuyPet(w.shards[i], user, at, jitter).Ok? {
      BuyPetKeepsBooks(w.shards[i], w.credits[i], user, at, jitter);
    }
    forall j | 0 <= j < |w.shards| ensures BooksSound(v.shards[j], v.credits[j]) && LedgerGrows(w.shards[j], v.shards[j]) {
      assert BooksSound(w.shards[j], w.credits[j]);
    }
  }

  /** Coins past the ledger: the wallet and the history of such credits move together. */
  lemma CreditCoinsStep(w: World, user: int, amount: nat)
    requires EconomyInvariant(w)
    ensures EconomyStep(w, AfterCreditCoins(w, user, amount))
  {
    var v := AfterCreditCoins(w, user, amount);
    forall j | 0 <= j < |w.shards| ensures BooksSound(v.shards[j], v.credits[j]) && LedgerGrows(w.shards[j], v.shards[j]) {
      assert BooksSound(w.shards[j], w.credits[j]);
      forall u ensures WalletSound(v.shards[j], v.credits[j], u) { assert WalletSound(w.shards[j], w.credits[j], u); }
    }
  }

  lemma CreateAccountStep(w: World, user: int)
    requires EconomyInvariant(w)
    ensures EconomyStep(w, AfterCreateAccount(w, user))
  {
    var v := AfterCreateAccount(w, user);
    forall j | 0 <= j < |w.shards| ensures BooksSound(v.shards[j], v.credits[j]) && LedgerGrows(w.shards[j], v.shards[j]) {
      assert BooksSound(w.shards[j], w.credits[j]);
      forall u ensures WalletSound(v.shards[j], v.credits[j], u) { assert WalletSound(w.shards[j], w.credits[j], u); }
    }
  }

  lemma StepKeepsEconomy(w: World, s: Step)
    requires EconomyInvariant(w)
    ensures EconomyInvariant(Next(w, s))
  {
    StepKeepsLog(w, s);
    match s
    case CommitEconomy(cmd, eventId) => CommitEconomyStep(w, cmd, eventId);
    case AskEconomy(cmd) => AskEconomyStep(w, cmd);
    case CommitFarm(cmd, at, eventId) =>
      if FarmCommits(w, cmd, at, eventId) {
        var done := CommitFarmCommits(w, cmd, at, eventId);
        CommitFarmKeepsBooks(w, Next(w, s), cmd, at, eventId, done);
        EconomyStepKeepsInvariant(w, Next(w, s));
      }
    case DeliverStolen(eventId, p) =>
      DeliverStep(w, eventId, p);
      EconomyStepKeepsInvariant(w, Next(w, s));
    case MailItem(user, kind, itemId, quantity) =>
      MailStep(w, user, kind, itemId, quantity);
      EconomyStepKeepsInvariant(w, Next(w, s));
    case CreditCoins(user, amount) =>
      CreditCoinsStep(w, user, amount);
      EconomyStepKeepsInvariant(w, Next(w, s));
    case BuyPet(user, at, jitter) =>
      BuyPetStep(w, user, at, jitter);
      EconomyStepKeepsInvariant(w, Next(w, s));
    case CreateAccount(user) =>
      CreateAccountStep(w, user);
      EconomyStepKeepsInvariant(w, Next(w, s));
    case _ =>
      KeptBooksStaySound(w, s);
      RepliesKept(w, s);
      EconomyStepKeepsInvariant(w, Next(w, s));
  }

  lemma RepliesKept(w: World, s: Step)
    requires Shape(w) && KeepsBooks(s) && !s.AskEconomy?
    ensures Next(w, s).economyReplies == w.economyReplies
  {
  }

  lemma {:induction false} RunKeepsEconomy(wiring: Wiring, steps: seq<Step>)
    requires wiring.shardCount > 0
    ensures EconomyInvariant(Run(wiring, steps))
  {
    if steps == [] {
      RunKeepsLog(wiring, steps);
      var w := Start(wiring);
      forall i | 0 <= i < |w.shards| ensures BooksSound(w.shards[i], w.credits[i]) {
        forall u ensures WalletSound(w.shards[i], w.credits[i], u) {}
      }
    } else {
      RunKeepsEconomy(wiring, steps[..|steps| - 1]);
      StepKeepsEconomy(Run(wiring, steps[..|steps| - 1]), steps[|steps| - 1]);
    }
  }

  // ---- The theorems ----

  /**
   * No wallet and no stock ever goes negative, and every wallet is exactly the initial coins, less a
   * pet's price if one was bought, plus the deltas of its ledger rows, plus the coins that mails and task
   * rewards gave its owner.
   */
  lemma BooksAlwaysBalance(wiring: Wiring, steps: seq<Step>, i: nat)
    requires wiring.shardCount > 0 && i < wiring.shardCount
    ensures var w := Run(wiring, steps); var db := w.shards[i];
      && (forall u :: u in db.wallets ==> 0 <= db.wallets[u] <= MAX_INT64)
      && (forall u :: u in db.wallets ==>
            db.wallets[u] == INIT_COINS - (if u in db.pets then PET_PRICE else 0)
                             + MapSum(db.ledger, DeltaOf(u)) + CreditedTo(w.credits[i], u))
      && (forall u :: CreditedTo(w.credits[i], u) == CoinsGiven(wiring, steps, i, u))
      && (forall k :: k in db.inventory ==> db.inventory[k] >= 0)
  {
    RunKeepsEconomy(wiring, steps);
    var w := Run(wiring, steps);
    var db := w.shards[i];
    assert BooksSound(db, w.credits[i]);
    forall u | u in db.wallets
      ensures 0 <= db.wallets[u] <= MAX_INT64
      ensures db.wallets[u] == INIT_COINS - (if u in db.pets then PET_PRICE else 0)
                               + MapSum(db.ledger, DeltaOf(u)) + CreditedTo(w.credits[i], u)
    {
      assert WalletSound(db, w.credits[i], u);
    }
    forall u ensures CreditedTo(w.credits[i], u) == CoinsGiven(wiring, steps, i, u) {
      CreditsAreTheCoinsGiven(wiring, steps, i, u);
    }
  }

  /** What one step gave user u on shard i past the ledger: its amount, if it changed anything. */
  ghost function GivenBy(w: World, s: Step, i: nat, u: int): nat
    requires Shape(w)
  {
    if s.CreditCoins? && s.user == u && Home(w, u) == i && Next(w, s) != w then s.amount else 0
  }

  ghost function CoinsGiven(wiring: Wiring, steps: seq<Step>, i: nat, u: int): nat
    requires wiring.shardCount > 0
  {
    if steps == [] then 0
    else
      var front := steps[..|steps| - 1];
      CoinsGiven(wiring, front, i, u) + GivenBy(Run(wiring, front), steps[|steps| - 1], i, u)
  }

  lemma {:induction false} CreditsAreTheCoinsGiven(wiring: Wiring, steps: seq<Step>, i: nat, u: int)
    requires wiring.shardCount > 0 && i < wiring.shardCount
    ensures CreditedTo(Run(wiring, steps).credits[i], u) == CoinsGiven(wiring, steps, i, u)
  {
    if steps != [] {
      var front := steps[..|steps| - 1];
      CreditsAreTheCoinsGiven(wiring, front, i, u);
      StepCredits(Run(wiring, front), steps[|steps| - 1], i, u);
    }
  }

  lemma StepCredits(w: World, s: Step, i: nat, u: int)
    requires Shape(w) && i < |w.credits|
    ensures var v := Next(w, s); |v.credits| == |w.credits| && CreditedTo(v.credits[i], u) == CreditedTo(w.credits[i], u) + GivenBy(w, s, i, u)
  {
    match s
    case CreditCoins(user, amount) =>
    case CommitFarm(cmd, at, eventId) =>
      if FarmCommits(w, cmd, at, eventId) { var done := CommitFarmCommits(w, cmd, at, eventId); }
    case _ =>
  }

  /** Every reply ever given under one key, fresh or replayed, carries the same balance: the winner's. */
  lemma RepliesAgree(wiring: Wiring, steps: seq<Step>, i: nat, key: LedgerKey, b: int, c: int)
    requires wiring.shardCount > 0
    requires (i, key, b) in Run(wiring, steps).economyReplies && (i, key, c) in Run(wiring, steps).economyReplies
    ensures b == c
  {
    RunKeepsEconomy(wiring, steps);
  }

  /** From w to v the ledger of shard i gained the key, or did not, as told. */
  ghost predicate GainsKey(w: World, v: World, i: nat, key: LedgerKey, gains: bool) {
    && i < |w.shards| == |v.shards|
    && (key in w.shards[i].ledger ==> key in v.shards[i].ledger && !gains)
    && (key !in w.shards[i].ledger ==> (key in v.shards[i].ledger <==> gains))
  }

  ghost predicate TakesEffect(w: World, s: Step, i: nat, key: LedgerKey)
    requires Shape(w)
  {
    s.CommitEconomy? && Home(w, s.cmd.farmId) == i && EconomyKey(s.cmd) == key && Next(w, s).shards != w.shards
  }

  /** How many attempts under one key changed the books of its shard. */
  ghost function Effects(wiring: Wiring, steps: seq<Step>, i: nat, key: LedgerKey): nat
    requires wiring.shardCount > 0
  {
    if steps == [] then 0
    else
      var front, s := steps[..|steps| - 1], steps[|steps| - 1];
      Effects(wiring, front, i, key)
        + if TakesEffect(Run(wiring, front), s, i, key) then 1 else 0
  }

  lemma StepEffect(w: World, s: Step, i: nat, key: LedgerKey)
    requires EconomyInvariant(w) && i < |w.shards| && key.biz != CrossShardSteal
    ensures GainsKey(w, Next(w, s), i, key, TakesEffect(w, s, i, key))
  {
    match s
    case CommitEconomy(cmd, eventId) => CommitEconomyEffect(w, cmd, eventId, i, key);
    case CommitFarm(cmd, at, eventId) => FarmStepGainsNothing(w, cmd, at, eventId, i, key);
    case DeliverStolen(eventId, p) => DeliveryGainsNothing(w, eventId, p, i, key);
    case MailItem(user, kind, itemId, quantity) =>
    case CreditCoins(user, amount) =>
    case BuyPet(user, at, jitter) => BuyPetGainsNothing(w, user, at, jitter, i, key);
    case CreateAccount(user) =>
    case _ =>
      BookKeepingStep(w, s);
      assert BooksKept(w.shards[i], Next(w, s).shards[i]);
  }

  lemma CommitEconomyEffect(w: World, cmd: Command, eventId: nat, i: nat, key: LedgerKey)
    requires Shape(w) && i < |w.shards|
    ensures GainsKey(w, AfterCommitEconomy(w, cmd, eventId), i, key, TakesEffect(w, CommitEconomy(cmd, eventId), i, key))
  {
    if EconomyCommits(w, cmd, eventId) {
      EconomyRow(w.shards[Home(w, cmd.farmId)], cmd, eventId);
      assert AfterCommitEconomy(w, cmd, eventId).shards[Home(w, cmd.farmId)] != w.shards[Home(w, cmd.farmId)];
    }
  }

  lemma FarmStepGainsNothing(w: World, cmd: Command, at: Time, eventId: nat, i: nat, key: LedgerKey)
    requires Shape(w) && i < |w.shards|
    ensures GainsKey(w, AfterCommitFarm(w, cmd, at, eventId), i, key, false)
  {
    if FarmCommits(w, cmd, at, eventId) {
      var done := CommitFarmCommits(w, cmd, at, eventId);
      FarmCommitGainsNothing(w, AfterCommitFarm(w, cmd, at, eventId), cmd, at, eventId, done, i, key);
    }
  }

  lemma FarmCommitGainsNothing(w: World, v: World, cmd: Command, at: Time, eventId: nat, done: Committed, i: nat, key: LedgerKey)
    requires FarmCommitted(w, v, cmd, at, eventId, done) && i < |w.shards|
    ensures GainsKey(w, v, i, key, false)
  {
  }

  lemma DeliveryGainsNothing(w: World, eventId: nat, p: Payload, i: nat, key: LedgerKey)
    requires Shape(w) && i < |w.shards| && key.biz != CrossShardSteal
    ensures GainsKey(w, AfterDeliverStolen(w, eventId, p), i, key, false)
  {
  }

  lemma BuyPetGainsNothing(w: World, user: int, at: Time, jitter: nat, i: nat, key: LedgerKey)
    requires Shape(w) && i < |w.shards|
    ensures GainsKey(w, AfterBuyPet(w, user, at, jitter), i, key, false)
  {
  }

  /**
   * For any concurrent attempts with one key: at most one of them changes wallet and inventory, and
   * exactly one has done so when the ledger row exists.
   */
  lemma {:induction false} EachKeyTakesEffectOnce(wiring: Wiring, steps: seq<Step>, i: nat, key: LedgerKey)
    requires wiring.shardCount > 0 && i < wiring.shardCount && key.biz != CrossShardSteal
    ensures Effects(wiring, steps, i, key) == if key in Run(wiring, steps).shards[i].ledger then 1 else 0
  {
    if steps != [] {
      var front := steps[..|steps| - 1];
      EachKeyTakesEffectOnce(wiring, front, i, key);
      RunKeepsEconomy(wiring, front);
      StepEffect(Run(wiring, front), steps[|steps| - 1], i, key);
    }
  }

  /**
   * An attempt that loses to a duplicate key finds the winner's row. Asking again replays its balance
   * exactly when the identifier fills the ledger's column; a shorter one is padded on the way in, is never
   * found, and every retry fails alike.
   */
  lemma LosersReplayTheWinner(w: World, cmd: Command, eventId: nat)
    requires Shape(w) && Economic(cmd.kind) && QuantityAllowed(cmd.quantity)
    requires FinishEconomic(w.shards[Home(w, cmd.farmId)], cmd, eventId) == Err(DuplicateKey)
    ensures var i := Home(w, cmd.farmId); var key := EconomyKey(cmd);
      && Next(w, CommitEconomy(cmd, eventId)) == w
      && key in w.shards[i].ledger
      && (LedgerHit(w.shards[i], cmd).Some? <==> FullBizId(cmd.cmdId))
      && (FullBizId(cmd.cmdId) ==> (i, key, w.shards[i].ledger[key].balanceAfter) in Next(w, AskEconomy(cmd)).economyReplies)
      && (!FullBizId(cmd.cmdId) ==> Next(w, AskEconomy(cmd)) == w)
  {
  }

  predicate LowerHex(s: string) { forall i :: 0 <= i < |s| ==> '0' <= s[i] <= '9' || 'a' <= s[i] <= 'f' }

  /** The compact form of a UUID: thirty-two digits. */
  predicate IsCompact(cmdId: string) { |cmdId| == 2 * BIZ_ID_BYTES && LowerHex(cmdId) }

  lemma {:induction false} LowerHexIsUnhexed(s: string)
    requires LowerHex(s) && |s| % 2 == 0
    ensures Unhex(s).Some? && |Unhex(s).value| == |s| / 2
  {
    if s != [] { LowerHexIsUnhexed(s[..|s| - 2]); }
  }

  function Byte(high: char, low: char): nat
    requires HexDigit(high).Some? && HexDigit(low).Some?
  {
    16 * HexDigit(high).value + HexDigit(low).value
  }

  lemma LastByte(s: string, n: nat)
    requires LowerHex(s) && |s| % 2 == 0 && |s| == n + 2
    ensures Unhex(s[..n]).Some? && HexDigit(s[n]).Some? && HexDigit(s[n + 1]).Some?
    ensures Unhex(s) == Some(Unhex(s[..n]).value + [Byte(s[n], s[n + 1])])
  {
    LowerHexIsUnhexed(s[..n]);
  }

  lemma ByteIsInjective(a: char, b: char, c: char, d: char)
    requires LowerHex([a, b]) && LowerHex([c, d])
    requires HexDigit(a).Some? && HexDigit(b).Some? && HexDigit(c).Some? && HexDigit(d).Some?
    ensures Byte(a, b) == Byte(c, d) ==> a == c && b == d
  {
    assert [a, b][0] == a && [a, b][1] == b && [c, d][0] == c && [c, d][1] == d;
  }

  lemma LastDigitsAgree(s: string, t: string, n: nat)
    requires LowerHex(s) && LowerHex(t) && |s| % 2 == 0 && |s| == |t| == n + 2 && Unhex(s) == Unhex(t)
    ensures s[n] == t[n] && s[n + 1] == t[n + 1] && Unhex(s[..n]) == Unhex(t[..n])
  {
    LastByte(s, n);
    LastByte(t, n);
    SameEnds(Unhex(s[..n]).value, Unhex(t[..n]).value, Byte(s[n], s[n + 1]), Byte(t[n], t[n + 1]));
    ByteIsInjective(s[n], s[n + 1], t[n], t[n + 1]);
  }

  lemma FrontAndTwo(s: string, t: string, n: nat)
    requires |s| == |t| == n + 2 && s[..n] == t[..n] && s[n] == t[n] && s[n + 1] == t[n + 1]
    ensures s == t
  {
    assert s == s[..n] + [s[n], s[n + 1]] && t == t[..n] + [t[n], t[n + 1]];
  }

  lemma {:induction false} LowerHexIsInjective(s: string, t: string)
    requires LowerHex(s) && LowerHex(t) && |s| % 2 == 0 && |s| == |t| && Unhex(s) == Unhex(t)
    ensures s == t
  {
    if s != [] {
      var n := |s| - 2;
      LastDigitsAgree(s, t, n);
      LowerHexIsInjective(s[..n], t[..n]);
      FrontAndTwo(s, t, n);
    }
  }

  lemma SameEnds(a: seq<nat>, b: seq<nat>, x: nat, y: nat)
    requires a + [x] == b + [y]
    ensures a == b && x == y
  {
    assert |a| == |b|;
    assert a == (a + [x])[..|a|] && b == (b + [y])[..|b|];
    assert (a + [x])[|a|] == x && (b + [y])[|b|] == y;
  }

  /** The identifiers the gateway lets through fill the column, and no two of them share a ledger row. */
  lemma CompactIdsHaveTheirOwnKeys(cmd: Command, other: Command)
    requires IsCompact(cmd.cmdId) && IsCompact(other.cmdId)
    ensures FullBizId(cmd.cmdId)
    ensures EconomyKey(cmd) == EconomyKey(other) ==> cmd.cmdId == other.cmdId && cmd.actorUser == other.actorUser
  {
    LowerHexIsUnhexed(cmd.cmdId);
    LowerHexIsUnhexed(other.cmdId);
    var a, b := Unhex(cmd.cmdId).value, Unhex(other.cmdId).value;
    assert a + Zeros(0) == a && b + Zeros(0) == b;
    if EconomyKey(cmd) == EconomyKey(other) { LowerHexIsInjective(cmd.cmdId, other.cmdId); }
  }
}
