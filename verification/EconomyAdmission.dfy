/** Which purchases and sales commit, and what they do, told in terms of the rows a shard stores. */
module EconomyAdmission {
  import opened Prelude
  import opened FarmDomain
  import opened FarmTables

  // ---- The identifier column ----

  predicate IsDigit(c: char) { '0' <= c <= '9' || 'a' <= c <= 'f' || 'A' <= c <= 'F' }

  /** d is what the digit c stands for. */
  predicate StandsFor(c: char, d: nat) { d < 16 && ("0123456789abcdef"[d] == c || "0123456789ABCDEF"[d] == c) }

  lemma DigitsExactly(c: char)
    ensures HexDigit(c).Some? <==> IsDigit(c)
    ensures HexDigit(c).Some? ==> StandsFor(c, HexDigit(c).value)
  {
  }

  function Digit(c: char): (d: nat)
    requires IsDigit(c)
    ensures d < 16
  {
    DigitsExactly(c);
    HexDigit(c).value
  }

  predicate AllDigits(s: string) { forall i :: 0 <= i < |s| ==> IsDigit(s[i]) }

  /** The number written by the digits of s, to base sixteen. */
  function Number(s: string): nat
    requires AllDigits(s)
  {
    if s == [] then 0 else 16 * Number(s[..|s| - 1]) + Digit(s[|s| - 1])
  }

  /** The number whose bytes these are, the highest first. */
  function BytesNumber(bytes: seq<nat>): nat {
    if bytes == [] then 0 else 256 * BytesNumber(bytes[..|bytes| - 1]) + bytes[|bytes| - 1]
  }

  lemma AllButTwo(s: string, n: nat)
    requires |s| == n + 2
    ensures AllDigits(s) <==> AllDigits(s[..n]) && IsDigit(s[n]) && IsDigit(s[n + 1])
  {
    var front := s[..n];
    if AllDigits(s) {
      forall i | 0 <= i < n ensures IsDigit(front[i]) { assert front[i] == s[i]; }
    }
    if AllDigits(front) && IsDigit(s[n]) && IsDigit(s[n + 1]) {
      forall i | 0 <= i < |s| ensures IsDigit(s[i]) { if i < n { assert front[i] == s[i]; } }
    }
  }

  lemma UnhexOneByte(s: string, n: nat, high: Option<nat>, low: Option<nat>)
    requires |s| == n + 2 && high == HexDigit(s[n]) && low == HexDigit(s[n + 1])
    ensures Unhex(s) ==
      if Unhex(s[..n]).Some? && high.Some? && low.Some? then Some(Unhex(s[..n]).value + [16 * high.value + low.value]) else None
  {
  }

  lemma LastTwoDigits(s: string, n: nat)
    requires AllDigits(s) && |s| == n + 2
    ensures Number(s) == 256 * Number(s[..n]) + 16 * Digit(s[n]) + Digit(s[n + 1])
  {
    var t := s[..n + 1];
    assert t[..n] == s[..n] && t[n] == s[n];
    assert Number(t) == 16 * Number(t[..n]) + Digit(t[n]);
  }

  lemma OneMoreByte(bytes: seq<nat>, byte: nat)
    ensures BytesNumber(bytes + [byte]) == 256 * BytesNumber(bytes) + byte
  {
    assert (bytes + [byte])[..|bytes|] == bytes;
  }

  /** The bytes of a value: one for two digits, rounded up, and together the number the digits write. */
  ghost predicate BytesOf(s: string, bytes: seq<nat>)
    requires AllDigits(s)
  {
    |bytes| == (|s| + 1) / 2 && (forall i :: 0 <= i < |bytes| ==> bytes[i] < 256) && BytesNumber(bytes) == Number(s)
  }

  lemma UnhexOneDigit(s: string, low: Option<nat>)
    requires |s| == 1 && low == HexDigit(s[0])
    ensures Unhex(s) == if low.Some? then Some([low.value]) else None
  {
    if low.Some? { assert [] + [16 * 0 + low.value] == [low.value]; }
  }

  lemma OneDigitIsItsByte(s: string)
    requires |s| == 1 && AllDigits(s)
    ensures BytesOf(s, [Digit(s[0])])
  {
    assert s[..0] == [] && [Digit(s[0])][..0] == [];
  }

  /** UNHEX fails exactly on what holds a character that is no digit, and otherwise keeps the number. */
  lemma {:induction false} UnhexKeepsTheNumber(s: string)
    ensures Unhex(s).Some? <==> AllDigits(s)
    ensures AllDigits(s) ==> BytesOf(s, Unhex(s).value)
  {
    if |s| == 1 {
      DigitsExactly(s[0]);
      UnhexOneDigit(s, HexDigit(s[0]));
      if AllDigits(s) { OneDigitIsItsByte(s); }
    } else if s != [] {
      var n := |s| - 2;
      UnhexKeepsTheNumber(s[..n]);
      AllButTwo(s, n);
      DigitsExactly(s[n]);
      DigitsExactly(s[n + 1]);
      UnhexOneByte(s, n, HexDigit(s[n]), HexDigit(s[n + 1]));
      if AllDigits(s) {
        LastTwoDigits(s, n);
        OneMoreByte(Unhex(s[..n]).value, 16 * Digit(s[n]) + Digit(s[n + 1]));
      }
    }
  }

  predicate Storable(cmdId: string) { AllDigits(cmdId) && |cmdId| <= 32 }

  /** The column takes exactly the identifiers of at most thirty-two digits, and only full ones are found again. */
  lemma StorableExactly(cmdId: string)
    ensures StoredBizId(cmdId).Some? <==> Storable(cmdId)
    ensures FullBizId(cmdId) <==> AllDigits(cmdId) && 31 <= |cmdId| <= 32
    ensures StoredBizId(cmdId).Some? ==>
      var bytes := StoredBizId(cmdId).value;
      && |bytes| == 16 && Unhex(cmdId).value <= bytes
      && (forall i :: |Unhex(cmdId).value| <= i < 16 ==> bytes[i] == 0)
  {
    UnhexKeepsTheNumber(cmdId);
  }

  // ---- The exact condition ----

  predicate Buys(cmd: Command) { cmd.kind == PurchaseSeed }

  /** The stock row a purchase fills or a sale empties. */
  function StockRow(cmd: Command): InventoryKey {
    InventoryKey(cmd.actorUser, if Buys(cmd) then SeedItem else CropItem, CropIdToItemId(cmd.cropId))
  }

  function LedgerRowKey(cmd: Command): LedgerKey
    requires Storable(cmd.cmdId)
  {
    StorableExactly(cmd.cmdId);
    LedgerKey(cmd.actorUser, if Buys(cmd) then ShopPurchase else FarmSell, OfCommand(StoredBizId(cmd.cmdId).value))
  }

  /** What the command moves in the wallet, at the prices of the catalogue. */
  function Coins(cmd: Command): int
    requires cmd.cropId in CROP_CONFIGS
  {
    if Buys(cmd) then -(CROP_CONFIGS[cmd.cropId].seedPrice * cmd.quantity) else CROP_CONFIGS[cmd.cropId].sellPrice * cmd.quantity
  }

  predicate Affordable(db: Db, cmd: Command)
    requires cmd.cropId in CROP_CONFIGS && cmd.actorUser in db.wallets
  {
    if Buys(cmd) then CROP_CONFIGS[cmd.cropId].seedPrice * cmd.quantity <= db.wallets[cmd.actorUser]
    else StockRow(cmd) in db.inventory && cmd.quantity <= db.inventory[StockRow(cmd)]
  }

  /** What a purchase or sale must find. */
  predicate TradeAdmitted(db: Db, cmd: Command) {
    && cmd.cropId in CROP_CONFIGS && cmd.actorUser in db.wallets && Affordable(db, cmd)
    && db.wallets[cmd.actorUser] + Coins(cmd) <= 0x7fff_ffff_ffff_ffff
    && Storable(cmd.cmdId) && LedgerRowKey(cmd) !in db.ledger
  }

  /** The column of the wallet, with its check constraint. */
  predicate WalletColumn(db: Db, user: int) { user in db.wallets ==> 0 <= db.wallets[user] <= 0x7fff_ffff_ffff_ffff }

  /** The one refusal a trade gets, in the order in which they are noticed. */
  function TradeRefusal(db: Db, cmd: Command): Option<Error> {
    if cmd.cropId !in CROP_CONFIGS then Some(CropNotFound)
    else if cmd.actorUser !in db.wallets then Some(Internal)
    else if !Affordable(db, cmd) then Some(Insufficient)
    else if db.wallets[cmd.actorUser] + Coins(cmd) > 0x7fff_ffff_ffff_ffff then Some(Internal)
    else if !Storable(cmd.cmdId) then Some(Internal)
    else if LedgerRowKey(cmd) in db.ledger then Some(DuplicateKey)
    else None
  }

  lemma KnownCropsHaveAPrice(cropId: string)
    ensures cropId in CROP_CONFIGS ==>
      var cfg := CROP_CONFIGS[cropId]; GetCropConfig(cropId) == Ok(cfg) && 10 <= cfg.seedPrice <= 30 && 20 <= cfg.sellPrice <= 30
    ensures cropId !in CROP_CONFIGS ==> GetCropConfig(cropId) == Err(CropNotFound)
  {
  }

  lemma SmallProduct(price: int, quantity: int)
    requires 10 <= price <= 30 && 1 <= quantity <= 10_000
    ensures 0 < price * quantity <= 300_000 && Wrap64(price * quantity) == price * quantity
  {
    assert price * quantity <= 30 * quantity;
    assert 10 * quantity <= price * quantity;
  }

  /** Past the top of the column a sum turns negative, and the check constraint refuses it. */
  lemma SumWrapsExactly(balance: int, delta: int)
    requires 0 <= balance <= 0x7fff_ffff_ffff_ffff && -300_000 <= delta <= 300_000 && 0 <= balance + delta
    ensures Wrap64(balance + delta) == balance + delta <==> balance + delta <= 0x7fff_ffff_ffff_ffff
    ensures Wrap64(balance + delta) < 0 <==> balance + delta > 0x7fff_ffff_ffff_ffff
  {
  }

  /** Wallet and ledger take a movement exactly when the sum fits, the identifier fits, and its row is new. */
  lemma PostedExactly(db: Db, cmd: Command, eventId: nat, delta: int, inventory: map<InventoryKey, int>)
    requires Economic(cmd.kind) && WalletColumn(db, cmd.actorUser) && cmd.actorUser in db.wallets
    requires -300_000 <= delta <= 300_000 && 0 <= db.wallets[cmd.actorUser] + delta
    ensures var balance := db.wallets[cmd.actorUser];
      Posted(db, cmd, EconomyKey(cmd), eventId, balance, delta, inventory) ==
        if balance + delta > 0x7fff_ffff_ffff_ffff || !Storable(cmd.cmdId) then Err(Internal)
        else if LedgerRowKey(cmd) in db.ledger then Err(DuplicateKey)
        else
          Ok(Committed(
            db.(wallets := db.wallets[cmd.actorUser := balance + delta], inventory := inventory,
                ledger := db.ledger[LedgerRowKey(cmd) := LedgerRow(balance, delta, balance + delta)]),
            CommitResult(0, None, Some(eventId), false, balance + delta)))
  {
    StorableExactly(cmd.cmdId);
    SumWrapsExactly(db.wallets[cmd.actorUser], delta);
  }

  /** The stock after a trade. */
  function StockAfter(db: Db, cmd: Command): map<InventoryKey, int> {
    var had := if StockRow(cmd) in db.inventory then db.inventory[StockRow(cmd)] else 0;
    db.inventory[StockRow(cmd) := if Buys(cmd) then had + cmd.quantity else had - cmd.quantity]
  }

  ghost predicate TradeWritten(db: Db, db': Db, cmd: Command)
    requires TradeAdmitted(db, cmd)
  {
    var balance := db.wallets[cmd.actorUser];
    db' == db.(
      wallets := db.wallets[cmd.actorUser := balance + Coins(cmd)], inventory := StockAfter(db, cmd),
      ledger := db.ledger[LedgerRowKey(cmd) := LedgerRow(balance, Coins(cmd), balance + Coins(cmd))])
  }

  lemma CoinsAreFew(cmd: Command)
    requires 1 <= cmd.quantity <= 10_000 && cmd.cropId in CROP_CONFIGS
    ensures -300_000 <= Coins(cmd) <= 300_000
    ensures GetCropConfig(cmd.cropId).Ok?
    ensures var cfg := GetCropConfig(cmd.cropId).value;
      if Buys(cmd) then Wrap64(cfg.seedPrice * cmd.quantity) == -Coins(cmd) else Wrap64(cfg.sellPrice * cmd.quantity) == Coins(cmd) > 0
  {
    KnownCropsHaveAPrice(cmd.cropId);
    var cfg := CROP_CONFIGS[cmd.cropId];
    SmallProduct(cfg.seedPrice, cmd.quantity);
    SmallProduct(cfg.sellPrice, cmd.quantity);
  }

  lemma PurchaseIsPosted(db: Db, cmd: Command, eventId: nat, price: int)
    requires cmd.kind == PurchaseSeed && GetCropConfig(cmd.cropId).Ok? && cmd.actorUser in db.wallets
    requires price == Wrap64(GetCropConfig(cmd.cropId).value.seedPrice * cmd.quantity)
    ensures FinishEconomic(db, cmd, eventId) ==
      if db.wallets[cmd.actorUser] < price then Err(Insufficient)
      else Posted(db, cmd, EconomyKey(cmd), eventId, db.wallets[cmd.actorUser], -price, StockAfter(db, cmd))
  {
  }

  lemma SaleIsPosted(db: Db, cmd: Command, eventId: nat, price: int)
    requires cmd.kind == SellCrop && GetCropConfig(cmd.cropId).Ok? && cmd.actorUser in db.wallets
    requires price == Wrap64(GetCropConfig(cmd.cropId).value.sellPrice * cmd.quantity)
    ensures FinishEconomic(db, cmd, eventId) ==
      if StockRow(cmd) !in db.inventory || db.inventory[StockRow(cmd)] < cmd.quantity then Err(Insufficient)
      else Posted(db, cmd, EconomyKey(cmd), eventId, db.wallets[cmd.actorUser], price, StockAfter(db, cmd))
  {
  }

  lemma TradeIsPosted(db: Db, cmd: Command, eventId: nat)
    requires Economic(cmd.kind) && 1 <= cmd.quantity <= 10_000 && cmd.cropId in CROP_CONFIGS && cmd.actorUser in db.wallets
    ensures -300_000 <= Coins(cmd) <= 300_000
    ensures Affordable(db, cmd) && WalletColumn(db, cmd.actorUser) ==> 0 <= db.wallets[cmd.actorUser] + Coins(cmd)
    ensures FinishEconomic(db, cmd, eventId) ==
      if !Affordable(db, cmd) then Err(Insufficient)
      else Posted(db, cmd, EconomyKey(cmd), eventId, db.wallets[cmd.actorUser], Coins(cmd), StockAfter(db, cmd))
  {
    CoinsAreFew(cmd);
    if Buys(cmd) { PurchaseIsPosted(db, cmd, eventId, -Coins(cmd)); } else { SaleIsPosted(db, cmd, eventId, Coins(cmd)); }
  }

  /**
   * A trade commits if and only if the rows admit it, and every refusal is the one told. A committed
   * purchase takes the seed price for each piece from the wallet and adds the pieces to the seeds; a
   * committed sale takes the crops and adds the selling price for each. Both leave one ledger row with the
   * balance before and after, and nothing else.
   */
  lemma TradesCommitExactly(db: Db, cmd: Command, eventId: nat)
    requires Economic(cmd.kind) && 1 <= cmd.quantity <= 10_000 && WalletColumn(db, cmd.actorUser)
    ensures var r := FinishEconomic(db, cmd, eventId);
      && (r.Ok? <==> TradeAdmitted(db, cmd))
      && TradeRefusal(db, cmd) == (if r.Err? then Some(r.error) else None)
      && (r.Ok? ==>
            && TradeWritten(db, r.value.db, cmd)
            && r.value.result == CommitResult(0, None, Some(eventId), false, db.wallets[cmd.actorUser] + Coins(cmd)))
  {
    KnownCropsHaveAPrice(cmd.cropId);
    if cmd.cropId in CROP_CONFIGS && cmd.actorUser in db.wallets {
      TradeIsPosted(db, cmd, eventId);
      if Affordable(db, cmd) { PostedExactly(db, cmd, eventId, Coins(cmd), StockAfter(db, cmd)); }
    }
  }

  /** The lookup before the transaction replays a balance exactly for full identifiers with a ledger row. */
  lemma LedgerAnswersExactly(db: Db, cmd: Command)
    requires Economic(cmd.kind)
    ensures LedgerHit(db, cmd) ==
        if Storable(cmd.cmdId) && |cmd.cmdId| > 30 && LedgerRowKey(cmd) in db.ledger
        then Some(CommitResult(0, None, None, true, db.ledger[LedgerRowKey(cmd)].balanceAfter)) else None
  {
    StorableExactly(cmd.cmdId);
  }

  /** Quantities from one to ten thousand are let through. */
  lemma QuantitiesExactly(qty: int)
    ensures QuantityAllowed(qty) <==> 1 <= qty <= 10_000
  {
  }
}
