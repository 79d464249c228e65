/** Plots, crops, commands and the lazily derived growth stages. */
module FarmDomain {
  import opened Prelude

  /** Nanoseconds since Go's zero time; 0 is the zero time itself. */
  type Time = int

  const SECOND: Time := 1_000_000_000
  const MINUTE: Time := 60 * SECOND

  datatype PlotStatus = Unset | Empty | Growing | Mature

  datatype GrowthStage = Seedling | SemiMature | Ripe

  datatype Plot = Plot(
    plotId: int, cropId: string, status: PlotStatus, plantedAt: Time, matureAt: Time,
    wateredCount: int, remainingYield: int)
  {
    /** The status seen at `now`: MATURE is derived, never stored. */
    function EffectiveStatus(now: Time): PlotStatus {
      if status == Growing && matureAt != 0 && now >= matureAt then PlotStatus.Mature else status
    }

    function StageAt(now: Time): GrowthStage {
      if status == Empty then Seedling
      else if matureAt == 0 || now >= matureAt then Ripe
      else
        var total := matureAt - plantedAt;
        if total <= 0 then Ripe
        else
          var elapsed := if now - plantedAt < 0 then 0 else now - plantedAt;
          if elapsed * 2 >= total then SemiMature else Seedling
    }
  }

  const ZERO_PLOT := Plot(0, "", Unset, 0, 0, 0, 0)

  datatype CommandType =
    | Plant | Water | Harvest | PurchaseSeed | SellCrop | HelpWater | StealCrop | PetAutoHarvest
    | UnknownCommand

  datatype Command = Command(
    cmdId: string, farmId: int, actorUser: int, kind: CommandType, plotId: int, cropId: string,
    quantity: int, baseVersion: int, routeEpoch: int, petScheduledAt: Time)

  const MAX_ECONOMY_QUANTITY: int := 10000

  datatype Error =
    | RoutingFenced | RoutingEpochStale | FarmNotFound | NotFarmOwner | NotFriend | InvalidArgument
    | VersionConflict | PetNotOwned | PetAutoDisabled | PetAlreadyEquipped | PlotState
    | CropNotFound | Insufficient | Internal | DuplicateKey

  // ---- Crop configuration ----

  datatype CropConfig = CropConfig(
    seedPrice: int, growthDuration: Time, harvestYield: int, sellPrice: int, itemId: int)

  const WHEAT := CropConfig(10, 3 * MINUTE, 5, 20, 1)
  const CARROT := CropConfig(20, 6 * MINUTE, 6, 25, 2)
  const TOMATO := CropConfig(30, 9 * MINUTE, 8, 30, 3)

  const CROP_CONFIGS: map<string, CropConfig> :=
    map["1" := WHEAT, "WHEAT" := WHEAT, "2" := CARROT, "CARROT" := CARROT, "3" := TOMATO, "TOMATO" := TOMATO]

  const DEFAULT_GROWTH: Time := 10 * MINUTE

  /** Looks a crop up in a price table and refuses prices that could overflow an int64 product. */
  function ConfigFrom(table: map<string, CropConfig>, cropId: string): Result<CropConfig, Error> {
    if cropId !in table then Err(CropNotFound)
    else
      var cfg := table[cropId];
      var limit := MAX_INT64 / MAX_ECONOMY_QUANTITY;
      if cfg.seedPrice > 0 && cfg.seedPrice > limit then Err(Internal)
      else if cfg.sellPrice > 0 && cfg.sellPrice > limit then Err(Internal)
      else Ok(cfg)
  }

  function GetCropConfig(cropId: string): Result<CropConfig, Error> { ConfigFrom(CROP_CONFIGS, cropId) }

  function HarvestYieldForCrop(cropId: string): (y: int)
    ensures y >= 1
  {
    var cfg := GetCropConfig(cropId);
    if cfg.Ok? && cfg.value.harvestYield > 0 then cfg.value.harvestYield else 1
  }

  function CropIdToItemId(cropId: string): int {
    var cfg := GetCropConfig(cropId);
    if cfg.Ok? && cfg.value.itemId > 0 then cfg.value.itemId else 1
  }

  function GrowthDurationFor(cropId: string): (d: Time)
    ensures d >= 3 * MINUTE
  {
    var cfg := GetCropConfig(cropId);
    if cfg.Ok? then cfg.value.growthDuration else DEFAULT_GROWTH
  }

  /** The guard's price bound: what keeps unit price times quantity in int64 from below. */
  predicate PriceFloorHolds(price: int) { price >= -(0x8000_0000_0000_0000 / MAX_ECONOMY_QUANTITY) }

  /**
   * The guard promises that price times quantity cannot leave int64. For an accepted table entry that
   * holds for every legal quantity exactly when the price is also bounded from below: the guard looks
   * at positive prices only.
   */
  lemma AcceptedPricesAreSafe(table: map<string, CropConfig>, cropId: string)
    requires ConfigFrom(table, cropId).Ok?
    ensures var cfg := ConfigFrom(table, cropId).value;
      && ((forall qty :: 1 <= qty <= MAX_ECONOMY_QUANTITY ==> InInt64(cfg.seedPrice * qty))
          <==> PriceFloorHolds(cfg.seedPrice))
      && ((forall qty :: 1 <= qty <= MAX_ECONOMY_QUANTITY ==> InInt64(cfg.sellPrice * qty))
          <==> PriceFloorHolds(cfg.sellPrice))
  {
    var cfg := ConfigFrom(table, cropId).value;
    ProductBounds(cfg.seedPrice);
    ProductBounds(cfg.sellPrice);
  }

  lemma ProductBounds(price: int)
    requires price <= MAX_INT64 / MAX_ECONOMY_QUANTITY
    ensures (forall qty :: 1 <= qty <= MAX_ECONOMY_QUANTITY ==> InInt64(price * qty)) <==> PriceFloorHolds(price)
  {
    if PriceFloorHolds(price) {
      forall qty | 1 <= qty <= MAX_ECONOMY_QUANTITY ensures InInt64(price * qty) {
        ProductInRange(price, qty);
      }
    } else {
      assert !InInt64(price * MAX_ECONOMY_QUANTITY);
    }
  }

  lemma ProductInRange(price: int, qty: int)
    requires price <= MAX_INT64 / MAX_ECONOMY_QUANTITY && PriceFloorHolds(price)
    requires 1 <= qty <= MAX_ECONOMY_QUANTITY
    ensures InInt64(price * qty)
  {
    if price >= 0 {
      assert price * qty <= price * MAX_ECONOMY_QUANTITY;
    } else {
      assert price * qty >= price * MAX_ECONOMY_QUANTITY;
    }
  }

  /** A negative price passes the guard and overflows: two to the 62nd below zero, times four. */
  lemma NegativePriceOverflows()
    ensures var table := map["X" := CropConfig(-0x4000_0000_0000_0000, MINUTE, 1, 1, 1)];
      ConfigFrom(table, "X").Ok? && !InInt64(ConfigFrom(table, "X").value.seedPrice * 4)
  {
    var table := map["X" := CropConfig(-0x4000_0000_0000_0000, MINUTE, 1, 1, 1)];
    assert table["X"].seedPrice == -0x4000_0000_0000_0000;
  }

  // ---- Growth stages ----

  function Rank(s: GrowthStage): nat {
    match s
    case Seedling => 0
    case SemiMature => 1
    case Ripe => 2
  }

  /** At most one watering in each eligible stage; the second needs the first. */
  function WaterByGrowthStage(plot: Plot, now: Time): Plot {
    var counts := match plot.StageAt(now)
      case Seedling => plot.wateredCount == 0
      case SemiMature => plot.wateredCount == 1
      case Ripe => false;
    if counts then plot.(matureAt := plot.matureAt - MINUTE, wateredCount := plot.wateredCount + 1) else plot
  }

  /** What every stored plot satisfies. */
  predicate PlotInvariant(p: Plot) {
    match p.status
    case Unset => p.remainingYield == 0
    case Empty => p.remainingYield == 0
    case Mature => false
    case Growing =>
      && p.plantedAt > 0
      && 0 <= p.wateredCount <= 2
      && p.matureAt + p.wateredCount * MINUTE == p.plantedAt + GrowthDurationFor(p.cropId)
      && 1 <= p.remainingYield <= HarvestYieldForCrop(p.cropId)
  }

  /** Time alone never moves a growing plot back, and watering at any moment never does either. */
  lemma StageNeverGoesBack(p: Plot, wateredAt: Time, t: Time, u: Time)
    requires PlotInvariant(p) && p.status == Growing && t <= u
    ensures Rank(p.StageAt(t)) <= Rank(WaterByGrowthStage(p, wateredAt).StageAt(u))
    ensures Rank(p.StageAt(t)) <= Rank(p.StageAt(u))
    ensures PlotInvariant(WaterByGrowthStage(p, wateredAt))
  {
  }

  /** The stage is mature exactly when the effective status is. */
  lemma StageMatchesStatus(p: Plot, now: Time)
    requires PlotInvariant(p) && p.status == Growing
    ensures p.StageAt(now) == Ripe <==> p.EffectiveStatus(now) == PlotStatus.Mature
  {
  }

  /** A first watering that comes at or after half of the full growth time changes nothing. */
  lemma LateFirstWateringIsLost(p: Plot, now: Time)
    requires PlotInvariant(p) && p.status == Growing && p.wateredCount == 0
    ensures WaterByGrowthStage(p, now) != p
       <==> 2 * (now - p.plantedAt) < GrowthDurationFor(p.cropId)
  {
  }
}
