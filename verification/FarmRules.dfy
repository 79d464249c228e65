/** What one farm command does to the plots, the stored form of a snapshot, and growth cycles. */
module FarmRules {
  import opened Prelude
  import opened FarmDomain

  datatype EventType = FarmPlanted | FarmHarvested | FarmWatered | FarmStolen

  datatype ApplyResult = ApplyResult(
    changedPlot: Plot, eventType: EventType, harvestedCropId: string, harvestedYield: int,
    byPet: bool, stolenAmount: int, remainingYield: int)

  type Plots = map<int, Plot>

  datatype Applied = Applied(plots: Plots, result: ApplyResult)

  function PlotAt(plots: Plots, plotId: int): Plot {
    (if plotId in plots then plots[plotId] else ZERO_PLOT).(plotId := plotId)
  }

  predicate MatureAt(plots: Plots, plotId: int, now: Time) {
    plotId in plots && plots[plotId].EffectiveStatus(now) == PlotStatus.Mature
  }

  /** plotId is the mature plot with the smallest identifier. */
  ghost predicate SmallestMature(plots: Plots, plotId: int, now: Time) {
    MatureAt(plots, plotId, now) && forall q :: MatureAt(plots, q, now) ==> plotId <= q
  }

  /** How much one theft takes: a fifth of the crop's configured yield. */
  function StealAmount(cropId: string): int { HarvestYieldForCrop(cropId) / 5 }

  /** The specification of applyCmd: the plots after the command and what it reports. */
  ghost function Apply(plots: Plots, cmd: Command, now: Time): Result<Applied, Error> {
    var plot := PlotAt(plots, cmd.plotId);
    match cmd.kind
    case Plant =>
      if plot.status != Unset && plot.status != Empty then Err(PlotState)
      else
        var planted := Plot(cmd.plotId, cmd.cropId, Growing, now, now + GrowthDurationFor(cmd.cropId), 0,
                            HarvestYieldForCrop(cmd.cropId));
        Ok(Applied(plots[cmd.plotId := planted], ApplyResult(planted, FarmPlanted, "", 0, false, 0, 0)))
    case Harvest =>
      if plot.EffectiveStatus(now) != PlotStatus.Mature then Err(PlotState)
      else Ok(Cleared(plots, plot, false))
    case Water => Watered(plots, plot, now)
    case HelpWater => Watered(plots, plot, now)
    case StealCrop =>
      if plot.EffectiveStatus(now) != PlotStatus.Mature then Err(PlotState)
      else
        var amount := StealAmount(plot.cropId);
        if amount <= 0 || plot.remainingYield <= amount then Err(PlotState)
        else
          var robbed := plot.(remainingYield := plot.remainingYield - amount);
          Ok(Applied(plots[cmd.plotId := robbed],
                     ApplyResult(robbed, FarmStolen, plot.cropId, 0, false, amount, robbed.remainingYield)))
    case PetAutoHarvest =>
      if plot.EffectiveStatus(now) != PlotStatus.Mature then Err(PlotState)
      else if !SmallestMature(plots, cmd.plotId, now) then Err(VersionConflict)
      else Ok(Cleared(plots, plot, true))
    case _ => Err(InvalidArgument)
  }

  ghost function Cleared(plots: Plots, plot: Plot, byPet: bool): Applied {
    var empty := ZERO_PLOT.(plotId := plot.plotId, status := Empty);
    Applied(plots[plot.plotId := empty],
            ApplyResult(empty, FarmHarvested, plot.cropId, plot.remainingYield, byPet, 0, 0))
  }

  ghost function Watered(plots: Plots, plot: Plot, now: Time): Result<Applied, Error> {
    var eff := plot.EffectiveStatus(now);
    if eff == Empty || eff == Unset then Err(PlotState)
    else
      var watered := WaterByGrowthStage(plot, now);
      Ok(Applied(plots[plot.plotId := watered], ApplyResult(watered, FarmWatered, "", 0, false, 0, 0)))
  }

  // ---- The stored form ----

  /** One plot as the snapshot column holds it: the identifier lives in the key only. */
  datatype PlotJson = PlotJson(
    cropId: string, status: PlotStatus, plantedAt: Time, matureAt: Time, wateredCount: int,
    remainingYield: Option<int>)

  type SnapshotJson = map<int, PlotJson>

  function Marshal(plots: Plots): SnapshotJson {
    map k | k in plots ::
      PlotJson(plots[k].cropId, plots[k].status, plots[k].plantedAt, plots[k].matureAt,
               plots[k].wateredCount, Some(plots[k].remainingYield))
  }

  /** Rows written before remaining_yield existed get the configured yield back. */
  function Unmarshal(json: SnapshotJson): Plots {
    map k | k in json ::
      var p := json[k];
      var remaining :=
        if p.remainingYield.Some? then p.remainingYield.value
        else if p.status != Empty && p.status != Unset then HarvestYieldForCrop(p.cropId)
        else 0;
      Plot(k, p.cropId, p.status, p.plantedAt, p.matureAt, p.wateredCount, remaining)
  }

  predicate WellKeyed(plots: Plots) { forall k :: k in plots ==> plots[k].plotId == k }

  /** The column loses nothing exactly when every plot sits under its own identifier. */
  lemma SnapshotRoundTrip(plots: Plots)
    ensures WellKeyed(Unmarshal(Marshal(plots)))
    ensures Unmarshal(Marshal(plots)) == plots <==> WellKeyed(plots)
  {
    var back := Unmarshal(Marshal(plots));
    if WellKeyed(plots) {
      forall k | k in plots ensures back[k] == plots[k] {}
      assert back == plots;
    } else {
      var k :| k in plots && plots[k].plotId != k;
      assert back[k].plotId == k;
    }
  }

  ghost predicate ValidPlots(plots: Plots) {
    WellKeyed(plots) && forall k :: k in plots ==> PlotInvariant(plots[k])
  }

  /** A command replaces one plot, its own, and the patch it reports is that plot. */
  lemma ApplyChangesOnePlot(plots: Plots, cmd: Command, now: Time)
    requires ValidPlots(plots) && now > 0 && Apply(plots, cmd, now).Ok?
    ensures var r := Apply(plots, cmd, now).value;
      && r.plots == plots[cmd.plotId := r.result.changedPlot]
      && r.result.changedPlot.plotId == cmd.plotId
      && PlotInvariant(r.result.changedPlot)
  {
    var plot := PlotAt(plots, cmd.plotId);
    assert PlotInvariant(plot);
    match cmd.kind
    case Plant =>
    case StealCrop =>
    case Water => WateredIsValid(plot, now);
    case HelpWater => WateredIsValid(plot, now);
    case _ =>
  }

  lemma WateredIsValid(plot: Plot, now: Time)
    requires PlotInvariant(plot) && plot.status == Growing
    ensures PlotInvariant(WaterByGrowthStage(plot, now)) && WaterByGrowthStage(plot, now).plotId == plot.plotId
  {
  }

  lemma ApplyKeepsValid(plots: Plots, cmd: Command, now: Time)
    requires ValidPlots(plots) && now > 0
    ensures var r := Apply(plots, cmd, now); r.Ok? ==> ValidPlots(r.value.plots)
  {
    if Apply(plots, cmd, now).Ok? {
      ApplyChangesOnePlot(plots, cmd, now);
    }
  }

  // ---- Logs of committed commands ----

  datatype Entry = Entry(cmd: Command, now: Time)

  /** Folds a log over a snapshot, storing and reloading between commands. */
  ghost function Replay(plots: Plots, log: seq<Entry>): Result<Plots, Error> {
    if log == [] then Ok(plots)
    else
      var last := |log| - 1;
      var before := Replay(plots, log[..last]);
      if before.Err? then before
      else
        var r := Apply(before.value, log[last].cmd, log[last].now);
        if r.Err? then Err(r.error) else Ok(Unmarshal(Marshal(r.value.plots)))
  }

  lemma ReplayPush(plots: Plots, log: seq<Entry>, e: Entry)
    requires Replay(plots, log).Ok? && Apply(Replay(plots, log).value, e.cmd, e.now).Ok?
    ensures Replay(plots, log + [e])
         == Ok(Unmarshal(Marshal(Apply(Replay(plots, log).value, e.cmd, e.now).value.plots)))
  {
    assert (log + [e])[..|log|] == log;
  }

  lemma {:induction false} ReplayKeepsValid(plots: Plots, log: seq<Entry>)
    requires ValidPlots(plots) && Replay(plots, log).Ok?
    requires forall i :: 0 <= i < |log| ==> log[i].now > 0
    ensures ValidPlots(Replay(plots, log).value)
  {
    if log != [] {
      var last := |log| - 1;
      ReplayKeepsValid(plots, log[..last]);
      var before := Replay(plots, log[..last]).value;
      ApplyKeepsValid(before, log[last].cmd, log[last].now);
      SnapshotRoundTrip(Apply(before, log[last].cmd, log[last].now).value.plots);
    }
  }

  // ---- Growth cycles ----

  predicate Harvests(e: Entry, plotId: int) {
    e.cmd.plotId == plotId && (e.cmd.kind == Harvest || e.cmd.kind == PetAutoHarvest)
  }

  predicate Waters(e: Entry, plotId: int) {
    e.cmd.plotId == plotId && (e.cmd.kind == Water || e.cmd.kind == HelpWater)
  }

  predicate Steals(e: Entry, plotId: int) { e.cmd.plotId == plotId && e.cmd.kind == StealCrop }

  /** How many thefts the log holds against one plot. */
  function Thefts(log: seq<Entry>, plotId: int): nat {
    if log == [] then 0
    else Thefts(log[..|log| - 1], plotId) + if Steals(log[|log| - 1], plotId) then 1 else 0
  }

  /** plotId is growing and log is a committed stretch in which nobody harvests it. */
  ghost predicate Cycle(plots: Plots, log: seq<Entry>, plotId: int) {
    && ValidPlots(plots)
    && plotId in plots && plots[plotId].status == Growing
    && Replay(plots, log).Ok?
    && (forall i :: 0 <= i < |log| ==> log[i].now > 0)
    && (forall i :: 0 <= i < |log| ==> !Harvests(log[i], plotId))
  }

  ghost function After(plots: Plots, log: seq<Entry>, plotId: int): Plot
    requires Cycle(plots, log, plotId)
  {
    var end := Replay(plots, log).value;
    if plotId in end then end[plotId] else ZERO_PLOT
  }

  lemma CyclePrefix(plots: Plots, log: seq<Entry>, plotId: int)
    requires Cycle(plots, log, plotId) && log != []
    ensures Cycle(plots, log[..|log| - 1], plotId)
  {
    var front := log[..|log| - 1];
    forall i | 0 <= i < |front| ensures front[i].now > 0 && !Harvests(front[i], plotId) {
      assert front[i] == log[i];
    }
  }

  /** What links a growing plot p to the same plot q later in its cycle, after some thefts. */
  ghost predicate SameCycle(p: Plot, q: Plot, thefts: nat) {
    && q.status == Growing && q.cropId == p.cropId && q.plantedAt == p.plantedAt
    && p.wateredCount <= q.wateredCount <= 2
    && q.matureAt + q.wateredCount * MINUTE == q.plantedAt + GrowthDurationFor(q.cropId)
    && q.remainingYield + thefts * StealAmount(p.cropId) == p.remainingYield
    && 1 <= q.remainingYield <= HarvestYieldForCrop(p.cropId)
  }

  /**
   * Over any committed stretch of one growth cycle, whatever is watered, stolen or done to other
   * plots in between: the crop and its planting time stay, maturity plus watered minutes stays at
   * planting time plus configured duration, thefts account for every unit that is missing, and at
   * least one unit is left.
   */
  lemma {:induction false} CycleLaw(plots: Plots, log: seq<Entry>, plotId: int)
    requires Cycle(plots, log, plotId)
    ensures ValidPlots(Replay(plots, log).value) && plotId in Replay(plots, log).value
    ensures SameCycle(plots[plotId], After(plots, log, plotId), Thefts(log, plotId))
  {
    ReplayKeepsValid(plots, log);
    if log == [] {
      assert SameCycle(plots[plotId], After(plots, log, plotId), 0);
    } else {
      var front, e := log[..|log| - 1], log[|log| - 1];
      CyclePrefix(plots, log, plotId);
      CycleLaw(plots, front, plotId);
      var mid := Replay(plots, front).value;
      LastEntry(plots, log, plotId);
      var q := After(plots, log, plotId);
      assert SameCycle(plots[plotId], q, Thefts(log, plotId)) by {
        SameCycleStep(plots[plotId], mid[plotId], Thefts(front, plotId), e, plotId, q);
      }
    }
  }

  /** The last entry of a stretch acts on the plot the stretch before it left. */
  lemma LastEntry(plots: Plots, log: seq<Entry>, plotId: int)
    requires Cycle(plots, log, plotId) && log != []
    requires var front := log[..|log| - 1];
      && Cycle(plots, front, plotId)
      && ValidPlots(Replay(plots, front).value) && plotId in Replay(plots, front).value
      && Replay(plots, front).value[plotId].status == Growing
    ensures var mid := Replay(plots, log[..|log| - 1]).value;
      && plotId in Replay(plots, log).value
      && After(plots, log, plotId) == OnPlot(mid[plotId], log[|log| - 1], plotId)
      && PlotInvariant(After(plots, log, plotId))
  {
    var e := log[|log| - 1];
    var mid := Replay(plots, log[..|log| - 1]).value;
    CycleStep(mid, e, plotId);
    ApplyKeepsValid(mid, e.cmd, e.now);
    SnapshotRoundTrip(Apply(mid, e.cmd, e.now).value.plots);
  }

  /** What one committed entry that is no harvest of plotId does to the growing plot p there. */
  ghost function OnPlot(p: Plot, e: Entry, plotId: int): Plot {
    if Steals(e, plotId) then p.(remainingYield := p.remainingYield - StealAmount(p.cropId))
    else if Waters(e, plotId) then WaterByGrowthStage(p, e.now)
    else p
  }

  lemma SameCycleStep(p: Plot, mid: Plot, thefts: nat, e: Entry, plotId: int, q: Plot)
    requires SameCycle(p, mid, thefts)
    requires q == OnPlot(mid, e, plotId) && PlotInvariant(q)
    ensures SameCycle(p, q, thefts + if Steals(e, plotId) then 1 else 0)
  {
    if Steals(e, plotId) {
      OneMoreTheft(thefts, StealAmount(p.cropId));
    } else if Waters(e, plotId) {
      WateringKeepsTheCrop(mid, e.now);
    }
  }

  lemma OneMoreTheft(n: int, amount: int)
    ensures (n + 1) * amount == n * amount + amount
  {
  }

  lemma WateringKeepsTheCrop(p: Plot, now: Time)
    ensures var q := WaterByGrowthStage(p, now);
      && q.status == p.status && q.cropId == p.cropId && q.plantedAt == p.plantedAt
      && q.remainingYield == p.remainingYield && q.wateredCount >= p.wateredCount
  {
  }

  lemma CycleStep(plots: Plots, e: Entry, plotId: int)
    requires ValidPlots(plots) && e.now > 0
    requires plotId in plots && plots[plotId].status == Growing
    requires !Harvests(e, plotId) && Apply(plots, e.cmd, e.now).Ok?
    ensures var after := Apply(plots, e.cmd, e.now).value.plots;
      plotId in after && after[plotId] == OnPlot(plots[plotId], e, plotId)
  {
  }

  /** The visible stage at t, and after any later stretch of the cycle at u >= t, never goes back. */
  lemma {:induction false} CycleStageMonotone(plots: Plots, log: seq<Entry>, plotId: int, t: Time, u: Time)
    requires Cycle(plots, log, plotId) && t <= u
    ensures Rank(plots[plotId].StageAt(t)) <= Rank(After(plots, log, plotId).StageAt(u))
  {
    if log == [] {
      StageNeverGoesBack(plots[plotId], t, t, u);
    } else {
      var front, e := log[..|log| - 1], log[|log| - 1];
      CyclePrefix(plots, log, plotId);
      CycleLaw(plots, front, plotId);
      CycleStageMonotone(plots, front, plotId, t, u);
      LastEntry(plots, log, plotId);
      StageNeverGoesBack(After(plots, front, plotId), e.now, u, u);
    }
  }

  /** Without a watering before half of the growth time, no later watering shortens the cycle. */
  lemma {:induction false} UnwateredSeedlingIsNeverShortened(plots: Plots, log: seq<Entry>, plotId: int)
    requires Cycle(plots, log, plotId) && plots[plotId].wateredCount == 0
    requires forall i :: 0 <= i < |log| && Waters(log[i], plotId)
               ==> 2 * (log[i].now - plots[plotId].plantedAt) >= GrowthDurationFor(plots[plotId].cropId)
    ensures After(plots, log, plotId).wateredCount == 0
    ensures After(plots, log, plotId).matureAt == plots[plotId].matureAt
  {
    if log != [] {
      var front, e := log[..|log| - 1], log[|log| - 1];
      CyclePrefix(plots, log, plotId);
      forall i | 0 <= i < |front| && Waters(front[i], plotId)
        ensures 2 * (front[i].now - plots[plotId].plantedAt) >= GrowthDurationFor(plots[plotId].cropId)
      {
        assert front[i] == log[i];
      }
      UnwateredSeedlingIsNeverShortened(plots, front, plotId);
      CycleLaw(plots, front, plotId);
      LastEntry(plots, log, plotId);
      LateFirstWateringIsLost(After(plots, front, plotId), e.now);
    }
  }

  /** From planting to harvest: the thefts and the harvest together are the configured yield. */
  lemma PlantedCropIsFullyAccountedFor(plots: Plots, plant: Entry, log: seq<Entry>, harvest: Entry)
    requires ValidPlots(plots) && plant.now > 0 && plant.cmd.kind == Plant
    requires Apply(plots, plant.cmd, plant.now).Ok?
    requires var planted := Apply(plots, plant.cmd, plant.now).value.plots;
      && Cycle(planted, log, plant.cmd.plotId)
      && Harvests(harvest, plant.cmd.plotId)
      && Apply(Replay(planted, log).value, harvest.cmd, harvest.now).Ok?
    ensures var planted := Apply(plots, plant.cmd, plant.now).value.plots;
      var r := Apply(Replay(planted, log).value, harvest.cmd, harvest.now).value.result;
      && r.harvestedCropId == plant.cmd.cropId
      && r.harvestedYield + Thefts(log, plant.cmd.plotId) * StealAmount(plant.cmd.cropId)
         == HarvestYieldForCrop(plant.cmd.cropId)
      && r.harvestedYield >= 1
  {
    var planted := Apply(plots, plant.cmd, plant.now).value.plots;
    CycleLaw(planted, log, plant.cmd.plotId);
  }
}
