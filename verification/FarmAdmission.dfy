/** Which farm commands commit, and what they do, told in terms of the rows a shard stores. */
module FarmAdmission {
  import opened Prelude
  import opened FarmDomain
  import opened FarmRules
  import opened FarmTables
  import Cluster
  import Outbox

  // ---- What the rows say ----

  /** Friendship rows between an owner and a visitor: the directed edge, where edges count, or the ordered pair. */
  predicate Befriended(db: Db, w: Wiring, owner: int, visitor: int) {
    || (w.friendshipEdges && (owner, visitor) in db.activeEdges)
    || (owner < visitor && (owner, visitor) in db.friendships)
    || (visitor <= owner && (visitor, owner) in db.friendships)
  }

  /** The stored row of a farm; a farm never written counts as an empty one of its user. */
  function Stored(db: Db, farmId: int): FarmRow {
    if farmId in db.farms then db.farms[farmId] else FarmRow(farmId, 0, map[], 0, None, None)
  }

  predicate FreeToPlant(json: SnapshotJson, k: int) { k !in json || json[k].status == Unset || json[k].status == Empty }

  predicate Waterable(json: SnapshotJson, k: int) { k in json && (json[k].status == Growing || json[k].status == PlotStatus.Mature) }

  predicate RipeAt(json: SnapshotJson, k: int, now: Time) {
    k in json && (json[k].status == PlotStatus.Mature || (json[k].status == Growing && json[k].matureAt != 0 && json[k].matureAt <= now))
  }

  ghost predicate FirstRipe(json: SnapshotJson, k: int, now: Time) {
    RipeAt(json, k, now) && forall q :: RipeAt(json, q, now) ==> k <= q
  }

  /** What is left on a plot that is ripe; rows from before the column existed count in full. */
  function Left(p: PlotJson): int { if p.remainingYield.Some? then p.remainingYield.value else HarvestYieldForCrop(p.cropId) }

  predicate Stealable(json: SnapshotJson, k: int, now: Time) {
    && RipeAt(json, k, now)
    && (var share := HarvestYieldForCrop(json[k].cropId) / 5; 0 < share < Left(json[k]))
  }

  /** A watering that counts: in the first half of the growth time the first one, in the second half the second. */
  predicate Shortens(p: PlotJson, now: Time) {
    && p.matureAt != 0 && now < p.matureAt && p.plantedAt < p.matureAt
    && (if 2 * (now - p.plantedAt) < p.matureAt - p.plantedAt then p.wateredCount == 0 else p.wateredCount == 1)
  }

  predicate HasSeed(db: Db, user: int, cropId: string) {
    var key := InventoryKey(user, SeedItem, CropIdToItemId(cropId)); key in db.inventory && db.inventory[key] >= 1
  }

  // ---- The exact condition ----

  predicate KeysFree(db: Db, cmd: Command, eventId: nat) {
    && eventId !in db.outbox
    && (cmd.kind in {Plant, Harvest, StealCrop, PetAutoHarvest} ==> ReceiptKey(cmd.actorUser, cmd.cmdId) !in db.receipts)
  }

  /** What a farm command must find, by its kind. */
  ghost predicate Admitted(db: Db, w: Wiring, cmd: Command, now: Time) {
    var row := Stored(db, cmd.farmId);
    && cmd.routeEpoch == row.routeEpoch
    && (cmd.kind != PetAutoHarvest ==> cmd.baseVersion == row.version)
    && (match cmd.kind
        case Plant => FreeToPlant(row.snapshot, cmd.plotId) && (cmd.cropId in CROP_CONFIGS ==> HasSeed(db, cmd.actorUser, cmd.cropId))
        case Harvest => RipeAt(row.snapshot, cmd.plotId, now)
        case Water => Waterable(row.snapshot, cmd.plotId)
        case HelpWater =>
          && cmd.actorUser != row.ownerId && Befriended(db, w, row.ownerId, cmd.actorUser)
          && Waterable(row.snapshot, cmd.plotId)
        case StealCrop =>
          && cmd.actorUser != row.ownerId && Befriended(db, w, row.ownerId, cmd.actorUser)
          && Stealable(row.snapshot, cmd.plotId, now)
        case PetAutoHarvest =>
          && cmd.actorUser == row.ownerId && row.ownerId in db.pets && db.pets[row.ownerId] == Pet(true, true)
          && cmd.petScheduledAt != 0 && row.nextPetAt == Some(cmd.petScheduledAt) && cmd.petScheduledAt <= now
          && FirstRipe(row.snapshot, cmd.plotId, now)
        case _ => false)
  }

  lemma RipeMeansMature(json: SnapshotJson, now: Time)
    ensures forall k :: RipeAt(json, k, now) <==> MatureAt(Unmarshal(json), k, now)
  {
  }

  lemma CatalogueIsKnown(cropId: string)
    ensures GetCropConfig(cropId).Ok? <==> cropId in CROP_CONFIGS
  {
  }

  /** The checks on the locked row let exactly these pass. */
  lemma NoObjectionExactly(db: Db, w: Wiring, cmd: Command, now: Time)
    ensures FirstObjection(db, w, cmd, now).None? <==> (
      var row := Stored(db, cmd.farmId);
      && cmd.routeEpoch == row.routeEpoch
      && (cmd.kind != PetAutoHarvest ==> cmd.baseVersion == row.version)
      && (cmd.kind == HelpWater || cmd.kind == StealCrop ==>
            cmd.actorUser != row.ownerId && Befriended(db, w, row.ownerId, cmd.actorUser))
      && (cmd.kind == PetAutoHarvest ==>
            && cmd.actorUser == row.ownerId && row.ownerId in db.pets && db.pets[row.ownerId] == Pet(true, true)
            && cmd.petScheduledAt != 0 && row.nextPetAt.Some? && SameMillis(row.nextPetAt.value, cmd.petScheduledAt)
            && row.nextPetAt.value <= now))
  {
  }

  /** The plots take a command exactly then. */
  lemma PlotsAllowExactly(json: SnapshotJson, cmd: Command, now: Time)
    ensures Apply(Unmarshal(json), cmd, now).Ok? <==> (
      match cmd.kind
      case Plant => FreeToPlant(json, cmd.plotId)
      case Harvest => RipeAt(json, cmd.plotId, now)
      case Water => Waterable(json, cmd.plotId)
      case HelpWater => Waterable(json, cmd.plotId)
      case StealCrop => Stealable(json, cmd.plotId, now)
      case PetAutoHarvest => FirstRipe(json, cmd.plotId, now)
      case _ => false)
  {
    RipeMeansMature(json, now);
  }

  /** Side effects and writes refuse only for want of a seed, of the slot, or of free keys. */
  lemma WritesExactly(db: Db, w: Wiring, cmd: Command, applied: Applied, now: Time, eventId: nat)
    ensures var row := RowOf(db, cmd.farmId); var paid := SideEffects(db, w, cmd, applied.result, row.ownerId, now);
      (paid.Ok? && WriteOut(paid.value, row, cmd, applied, now, eventId).Ok?) <==>
        && (cmd.kind == Plant && cmd.cropId in CROP_CONFIGS ==> HasSeed(db, cmd.actorUser, cmd.cropId))
        && (cmd.kind == PetAutoHarvest ==> Stored(db, cmd.farmId).nextPetAt == Some(cmd.petScheduledAt))
        && KeysFree(db, cmd, eventId)
  {
    CatalogueIsKnown(cmd.cropId);
  }

  /**
   * A farm command commits if and only if the rows admit it and its keys are free: the fence and the base
   * version for everyone, friendship for visitors, slot and pet for pets, the plot and the seed.
   */
  lemma CommitsExactly(db: Db, w: Wiring, cmd: Command, now: Time, eventId: nat)
    ensures FinishFarm(db, w, cmd, now, eventId).Ok? <==> Admitted(db, w, cmd, now) && KeysFree(db, cmd, eventId)
  {
    NoObjectionExactly(db, w, cmd, now);
    PlotsAllowExactly(Stored(db, cmd.farmId).snapshot, cmd, now);
    var applied := Apply(Unmarshal(Stored(db, cmd.farmId).snapshot), cmd, now);
    if applied.Ok? { WritesExactly(db, w, cmd, applied.value, now, eventId); }
  }

  /** A visitor is told so if and only if fence and version are right, the farm is not their own, and no row befriends them. */
  lemma StrangersAreToldExactly(db: Db, w: Wiring, cmd: Command, now: Time, eventId: nat)
    ensures FinishFarm(db, w, cmd, now, eventId) == Err(NotFriend) <==>
      (var row := Stored(db, cmd.farmId);
       && (cmd.kind == HelpWater || cmd.kind == StealCrop)
       && cmd.routeEpoch == row.routeEpoch && cmd.baseVersion == row.version && cmd.actorUser != row.ownerId
       && !Befriended(db, w, row.ownerId, cmd.actorUser))
  {
  }

  /** The one refusal a command gets, by its kind, in the order in which they are noticed. */
  ghost function Refusal(db: Db, w: Wiring, cmd: Command, now: Time, eventId: nat): Option<Error> {
    var row := Stored(db, cmd.farmId);
    if cmd.routeEpoch != row.routeEpoch then Some(RoutingFenced)
    else if cmd.kind == PetAutoHarvest then PetRefusal(db, cmd, row, now, eventId)
    else if cmd.baseVersion != row.version then Some(VersionConflict)
    else
      match cmd.kind
      case Plant =>
        if !FreeToPlant(row.snapshot, cmd.plotId) then Some(PlotState)
        else if cmd.cropId in CROP_CONFIGS && !HasSeed(db, cmd.actorUser, cmd.cropId) then Some(Insufficient)
        else KeyRefusal(db, cmd, eventId)
      case Water => if Waterable(row.snapshot, cmd.plotId) then KeyRefusal(db, cmd, eventId) else Some(PlotState)
      case Harvest => if RipeAt(row.snapshot, cmd.plotId, now) then KeyRefusal(db, cmd, eventId) else Some(PlotState)
      case HelpWater =>
        if cmd.actorUser == row.ownerId then Some(NotFarmOwner)
        else if !Befriended(db, w, row.ownerId, cmd.actorUser) then Some(NotFriend)
        else if !Waterable(row.snapshot, cmd.plotId) then Some(PlotState)
        else KeyRefusal(db, cmd, eventId)
      case StealCrop =>
        if cmd.actorUser == row.ownerId then Some(NotFarmOwner)
        else if !Befriended(db, w, row.ownerId, cmd.actorUser) then Some(NotFriend)
        else if !Stealable(row.snapshot, cmd.plotId, now) then Some(PlotState)
        else KeyRefusal(db, cmd, eventId)
      case _ => Some(InvalidArgument)
  }

  function KeyRefusal(db: Db, cmd: Command, eventId: nat): Option<Error> { if KeysFree(db, cmd, eventId) then None else Some(DuplicateKey) }

  /** A pet's slot is first compared by the millisecond, and only at the write to the last digit. */
  ghost function PetRefusal(db: Db, cmd: Command, row: FarmRow, now: Time, eventId: nat): Option<Error> {
    if cmd.actorUser != row.ownerId then Some(NotFarmOwner)
    else if cmd.petScheduledAt == 0 then Some(InvalidArgument)
    else if row.nextPetAt.None? || row.nextPetAt.value / 1_000_000 != cmd.petScheduledAt / 1_000_000 then Some(VersionConflict)
    else if now < row.nextPetAt.value then Some(VersionConflict)
    else if row.ownerId !in db.pets || !db.pets[row.ownerId].active then Some(PetNotOwned)
    else if !db.pets[row.ownerId].autoHarvest then Some(PetAutoDisabled)
    else if !RipeAt(row.snapshot, cmd.plotId, now) then Some(PlotState)
    else if !FirstRipe(row.snapshot, cmd.plotId, now) then Some(VersionConflict)
    else if row.nextPetAt.value != cmd.petScheduledAt then Some(VersionConflict)
    else KeyRefusal(db, cmd, eventId)
  }

  lemma ObjectionComesFirst(db: Db, w: Wiring, cmd: Command, now: Time, eventId: nat)
    requires FirstObjection(db, w, cmd, now).Some?
    ensures Refusal(db, w, cmd, now, eventId) == FirstObjection(db, w, cmd, now)
  {
  }

  lemma PlotsComeNext(db: Db, w: Wiring, cmd: Command, now: Time, eventId: nat)
    requires FirstObjection(db, w, cmd, now).None? && Apply(Unmarshal(Stored(db, cmd.farmId).snapshot), cmd, now).Err?
    ensures Refusal(db, w, cmd, now, eventId) == Some(Apply(Unmarshal(Stored(db, cmd.farmId).snapshot), cmd, now).error)
  {
    RipeMeansMature(Stored(db, cmd.farmId).snapshot, now);
  }

  lemma WritesComeLast(db: Db, w: Wiring, cmd: Command, now: Time, eventId: nat)
    requires FirstObjection(db, w, cmd, now).None? && Apply(Unmarshal(Stored(db, cmd.farmId).snapshot), cmd, now).Ok?
    requires FinishFarm(db, w, cmd, now, eventId).Err?
    ensures Refusal(db, w, cmd, now, eventId) == Some(FinishFarm(db, w, cmd, now, eventId).error)
  {
    NoObjectionExactly(db, w, cmd, now);
    PlotsAllowExactly(Stored(db, cmd.farmId).snapshot, cmd, now);
    RipeMeansMature(Stored(db, cmd.farmId).snapshot, now);
    CatalogueIsKnown(cmd.cropId);
  }

  /** Every refusal, exactly. */
  lemma RefusedExactly(db: Db, w: Wiring, cmd: Command, now: Time, eventId: nat)
    ensures var r := FinishFarm(db, w, cmd, now, eventId);
      Refusal(db, w, cmd, now, eventId) == if r.Err? then Some(r.error) else None
  {
    if FirstObjection(db, w, cmd, now).Some? {
      ObjectionComesFirst(db, w, cmd, now, eventId);
    } else if Apply(Unmarshal(Stored(db, cmd.farmId).snapshot), cmd, now).Err? {
      PlotsComeNext(db, w, cmd, now, eventId);
    } else if FinishFarm(db, w, cmd, now, eventId).Err? {
      WritesComeLast(db, w, cmd, now, eventId);
    } else {
      CommitsExactly(db, w, cmd, now, eventId);
      AdmittedIsNotRefused(db, w, cmd, now, eventId);
    }
  }

  lemma AdmittedIsNotRefused(db: Db, w: Wiring, cmd: Command, now: Time, eventId: nat)
    requires Admitted(db, w, cmd, now) && KeysFree(db, cmd, eventId)
    ensures Refusal(db, w, cmd, now, eventId).None?
  {
  }

  // ---- What a commit writes ----

  /** A plot as a rewritten snapshot holds it: with its yield filled in. */
  function FilledIn(p: PlotJson): PlotJson {
    p.(remainingYield := Some(if p.remainingYield.Some? then p.remainingYield.value
                              else if p.status == Empty || p.status == Unset then 0 else HarvestYieldForCrop(p.cropId)))
  }

  const BARE := PlotJson("", Empty, 0, 0, 0, Some(0))

  /** The command's own plot after the commit. */
  function PlotAfter(json: SnapshotJson, cmd: Command, now: Time): PlotJson
    requires cmd.kind != Plant ==> cmd.plotId in json
  {
    match cmd.kind
    case Plant =>
      PlotJson(cmd.cropId, Growing, now, now + GrowthDurationFor(cmd.cropId), 0, Some(HarvestYieldForCrop(cmd.cropId)))
    case Harvest => BARE
    case PetAutoHarvest => BARE
    case StealCrop =>
      var p := json[cmd.plotId];
      p.(remainingYield := Some(Left(p) - HarvestYieldForCrop(p.cropId) / 5))
    case _ =>
      var p := FilledIn(json[cmd.plotId]);
      if Shortens(p, now) then p.(matureAt := p.matureAt - 60_000_000_000, wateredCount := p.wateredCount + 1) else p
  }

  /** The stock row a commit moves, and by how much. */
  function StockMove(db: Db, w: Wiring, cmd: Command): Option<(InventoryKey, int)>
    requires cmd.kind != Plant ==> cmd.plotId in Stored(db, cmd.farmId).snapshot
  {
    var row := Stored(db, cmd.farmId);
    match cmd.kind
    case Plant => if cmd.cropId in CROP_CONFIGS then Some((InventoryKey(cmd.actorUser, SeedItem, CropIdToItemId(cmd.cropId)), -1)) else None
    case Water => None
    case HelpWater => None
    case StealCrop =>
      var p := row.snapshot[cmd.plotId];
      if w.shardCount > 0 && row.ownerId > 0 && cmd.actorUser > 0 && row.ownerId % w.shardCount != cmd.actorUser % w.shardCount then None
      else Some((InventoryKey(cmd.actorUser, CropItem, CropIdToItemId(p.cropId)), HarvestYieldForCrop(p.cropId) / 5))
    case _ =>
      var p := row.snapshot[cmd.plotId];
      if Left(p) > 0 then Some((InventoryKey(row.ownerId, CropItem, CropIdToItemId(p.cropId)), Left(p))) else None
  }

  /** The event a commit announces. */
  function Announcement(db: Db, cmd: Command, now: Time): Payload
    requires cmd.kind != Plant ==> cmd.plotId in Stored(db, cmd.farmId).snapshot
  {
    var row := Stored(db, cmd.farmId);
    var after, v := PlotAfter(row.snapshot, cmd, now), row.version + 1;
    match cmd.kind
    case Plant => Planted(cmd.farmId, row.ownerId, cmd.actorUser, v, cmd.plotId, cmd.cropId, now, after.matureAt, cmd.cmdId)
    case Water => Payload.Watered(cmd.farmId, row.ownerId, cmd.actorUser, v, cmd.plotId, now, cmd.cmdId)
    case HelpWater => Payload.Watered(cmd.farmId, row.ownerId, cmd.actorUser, v, cmd.plotId, now, cmd.cmdId)
    case StealCrop =>
      var p := row.snapshot[cmd.plotId];
      Stolen(cmd.farmId, row.ownerId, cmd.actorUser, v, cmd.plotId, p.cropId, HarvestYieldForCrop(p.cropId) / 5,
             Left(p) - HarvestYieldForCrop(p.cropId) / 5, now, cmd.cmdId)
    case _ =>
      var p := row.snapshot[cmd.plotId];
      Harvested(cmd.farmId, row.ownerId, cmd.actorUser, v, cmd.plotId, p.cropId, Left(p), cmd.kind == PetAutoHarvest, now, cmd.cmdId)
  }

  predicate OwnPlotStored(db: Db, cmd: Command) { cmd.kind != Plant ==> cmd.plotId in Stored(db, cmd.farmId).snapshot }

  lemma AdmittedPlotIsStored(db: Db, w: Wiring, cmd: Command, now: Time)
    requires Admitted(db, w, cmd, now)
    ensures OwnPlotStored(db, cmd)
  {
  }

  /** Plots: the command's own one is rewritten, all others keep what they had. */
  lemma PlotsWritten(json: SnapshotJson, cmd: Command, now: Time)
    requires Apply(Unmarshal(json), cmd, now).Ok?
    ensures cmd.kind != Plant ==> cmd.plotId in json
    ensures var after := Marshal(Apply(Unmarshal(json), cmd, now).value.plots);
      && after.Keys == json.Keys + {cmd.plotId}
      && after[cmd.plotId] == PlotAfter(json, cmd, now)
      && (forall q :: q in json && q != cmd.plotId ==> after[q] == FilledIn(json[q]))
  {
    var r := Apply(Unmarshal(json), cmd, now).value;
    OwnPlotWritten(json, cmd, now);
    OthersFilledIn(json, cmd.plotId, r.result.changedPlot);
  }

  lemma OwnPlotWritten(json: SnapshotJson, cmd: Command, now: Time)
    requires Apply(Unmarshal(json), cmd, now).Ok?
    ensures cmd.kind != Plant ==> cmd.plotId in json
    ensures var r := Apply(Unmarshal(json), cmd, now).value; var p := r.result.changedPlot;
      && r.plots == Unmarshal(json)[cmd.plotId := p] && p.plotId == cmd.plotId
      && PlotJson(p.cropId, p.status, p.plantedAt, p.matureAt, p.wateredCount, Some(p.remainingYield)) == PlotAfter(json, cmd, now)
  {
  }

  lemma OthersFilledIn(json: SnapshotJson, k: int, p: Plot)
    ensures var after := Marshal(Unmarshal(json)[k := p]);
      && after.Keys == json.Keys + {k}
      && after[k] == PlotJson(p.cropId, p.status, p.plantedAt, p.matureAt, p.wateredCount, Some(p.remainingYield))
      && (forall q :: q in json && q != k ==> after[q] == FilledIn(json[q]))
  {
  }

  ghost predicate RowWritten(row: FarmRow, row': FarmRow, cmd: Command, now: Time)
    requires cmd.kind != Plant ==> cmd.plotId in row.snapshot
  {
    && row'.ownerId == row.ownerId && row'.version == row.version + 1 && row'.routeEpoch == row.routeEpoch
    && (if cmd.kind == PetAutoHarvest
        then row'.lease.None? && row'.nextPetAt.Some? && NearestTo(row'.nextPetAt.value, now + 30_000_000_000)
        else row'.lease == row.lease && row'.nextPetAt == row.nextPetAt)
    && row'.snapshot.Keys == row.snapshot.Keys + {cmd.plotId}
    && row'.snapshot[cmd.plotId] == PlotAfter(row.snapshot, cmd, now)
    && (forall q :: q in row.snapshot && q != cmd.plotId ==> row'.snapshot[q] == FilledIn(row.snapshot[q]))
  }

  /** A whole millisecond, the nearest to t, the later one of two. */
  predicate NearestTo(slot: Time, t: Time) { slot % 1_000_000 == 0 && t - 500_000 < slot <= t + 500_000 }

  lemma NearestMillisecond(t: Time)
    ensures NearestTo(StoreMillis(t), t)
  {
    var q, r := t / 1_000_000, t % 1_000_000;
    Multiples(q);
    Multiples(q + 1);
    if r < 500_000 { Quotient(t + 500_000, q); } else { Quotient(t + 500_000, q + 1); }
  }

  lemma Quotient(x: Time, q: int)
    requires q * 1_000_000 <= x < q * 1_000_000 + 1_000_000
    ensures x / 1_000_000 == q
  {
  }

  lemma Multiples(q: int)
    ensures (q * 1_000_000) % 1_000_000 == 0
  {
  }

  ghost predicate StockWritten(db: Db, w: Wiring, cmd: Command, inventory: map<InventoryKey, int>)
    requires OwnPlotStored(db, cmd)
  {
    inventory == (match StockMove(db, w, cmd)
      case None => db.inventory
      case Some((key, n)) => db.inventory[key := (if key in db.inventory then db.inventory[key] else 0) + n])
  }

  lemma RowIsWritten(db: Db, w: Wiring, cmd: Command, now: Time, eventId: nat, done: Committed)
    requires Cluster.FarmCommitEffect(db, w, cmd, now, eventId, done) && OwnPlotStored(db, cmd)
    ensures cmd.farmId in done.db.farms && done.db.farms == db.farms[cmd.farmId := done.db.farms[cmd.farmId]]
    ensures RowWritten(Stored(db, cmd.farmId), done.db.farms[cmd.farmId], cmd, now)
  {
    PlotsWritten(Stored(db, cmd.farmId).snapshot, cmd, now);
    NearestMillisecond(now + 30_000_000_000);
  }

  /** What a command reports of its plot. */
  ghost predicate Reports(json: SnapshotJson, cmd: Command, now: Time, r: ApplyResult)
    requires cmd.kind != Plant ==> cmd.plotId in json
  {
    var after := PlotAfter(json, cmd, now);
    && r.changedPlot.plotId == cmd.plotId && r.changedPlot.cropId == after.cropId
    && r.changedPlot.plantedAt == after.plantedAt && r.changedPlot.matureAt == after.matureAt
    && (match cmd.kind
        case Plant => r == ApplyResult(r.changedPlot, FarmPlanted, "", 0, false, 0, 0)
        case Water => r == ApplyResult(r.changedPlot, FarmWatered, "", 0, false, 0, 0)
        case HelpWater => r == ApplyResult(r.changedPlot, FarmWatered, "", 0, false, 0, 0)
        case StealCrop =>
          var share := HarvestYieldForCrop(json[cmd.plotId].cropId) / 5;
          r == ApplyResult(r.changedPlot, FarmStolen, json[cmd.plotId].cropId, 0, false, share, Left(json[cmd.plotId]) - share)
        case _ =>
          && (cmd.kind == Harvest || cmd.kind == PetAutoHarvest)
          && r == ApplyResult(r.changedPlot, FarmHarvested, json[cmd.plotId].cropId, Left(json[cmd.plotId]), cmd.kind == PetAutoHarvest, 0, 0))
  }

  lemma AppliedReports(json: SnapshotJson, cmd: Command, now: Time)
    requires Apply(Unmarshal(json), cmd, now).Ok?
    ensures cmd.kind != Plant ==> cmd.plotId in json
    ensures Reports(json, cmd, now, Apply(Unmarshal(json), cmd, now).value.result)
  {
  }

  lemma StockIsWritten(db: Db, w: Wiring, cmd: Command, now: Time, r: ApplyResult)
    requires OwnPlotStored(db, cmd) && Reports(Stored(db, cmd.farmId).snapshot, cmd, now, r)
    ensures StockWritten(db, w, cmd, InventoryAfter(db.inventory, w, cmd, r, Stored(db, cmd.farmId).ownerId))
  {
    CatalogueIsKnown(cmd.cropId);
  }

  lemma EventIsAnnounced(db: Db, cmd: Command, now: Time, r: ApplyResult)
    requires OwnPlotStored(db, cmd) && Reports(Stored(db, cmd.farmId).snapshot, cmd, now, r)
    ensures var row := Stored(db, cmd.farmId); BuildPayload(cmd, r, row.ownerId, row.version + 1, now) == Announcement(db, cmd, now)
  {
  }

  lemma PlotIsReported(db: Db, w: Wiring, cmd: Command, now: Time, eventId: nat, done: Committed)
    requires Cluster.FarmCommitEffect(db, w, cmd, now, eventId, done) && OwnPlotStored(db, cmd)
    ensures done.result.changedPlot.Some?
    ensures var p := done.result.changedPlot.value;
      && p.plotId == cmd.plotId
      && PlotAfter(Stored(db, cmd.farmId).snapshot, cmd, now)
         == PlotJson(p.cropId, p.status, p.plantedAt, p.matureAt, p.wateredCount, Some(p.remainingYield))
  {
    OwnPlotWritten(Stored(db, cmd.farmId).snapshot, cmd, now);
  }

  /** The other tables and counters. */
  lemma RestIsKept(db: Db, w: Wiring, cmd: Command, now: Time, eventId: nat)
    requires FinishFarm(db, w, cmd, now, eventId).Ok?
    ensures var done := FinishFarm(db, w, cmd, now, eventId).value; var db' := done.db;
      && db' == db.(farms := db'.farms, inventory := db'.inventory, receipts := db'.receipts, outbox := db'.outbox,
                    nextOutboxId := db.nextOutboxId + 1)
      && db'.receipts == (if cmd.kind in {Plant, Harvest, StealCrop, PetAutoHarvest}
           then db.receipts[ReceiptKey(cmd.actorUser, cmd.cmdId) := Stored(db, cmd.farmId).version + 1] else db.receipts)
      && done.result == CommitResult(Stored(db, cmd.farmId).version + 1, done.result.changedPlot, Some(eventId), false, 0)
  {
  }

  /**
   * What a committed farm command leaves behind, table by table: its farm's row, one stock row at most, its
   * receipt if it is a command that keeps one, one new outbox row with the announcement, and nothing else.
   */
  lemma CommitWrites(db: Db, w: Wiring, cmd: Command, now: Time, eventId: nat)
    requires FinishFarm(db, w, cmd, now, eventId).Ok?
    ensures OwnPlotStored(db, cmd)
    ensures var done := FinishFarm(db, w, cmd, now, eventId).value; var db' := done.db;
      && db' == db.(farms := db'.farms, inventory := db'.inventory, receipts := db'.receipts, outbox := db'.outbox,
                    nextOutboxId := db.nextOutboxId + 1)
      && cmd.farmId in db'.farms && db'.farms == db.farms[cmd.farmId := db'.farms[cmd.farmId]]
      && RowWritten(Stored(db, cmd.farmId), db'.farms[cmd.farmId], cmd, now)
      && StockWritten(db, w, cmd, db'.inventory)
      && db'.receipts == (if cmd.kind in {Plant, Harvest, StealCrop, PetAutoHarvest}
           then db.receipts[ReceiptKey(cmd.actorUser, cmd.cmdId) := Stored(db, cmd.farmId).version + 1] else db.receipts)
      && db'.outbox == db.outbox[eventId :=
           Outbox.OutboxRow(db.nextOutboxId, Announcement(db, cmd, now), Outbox.Pending, 0, now, None, None, None)]
      && done.result == CommitResult(Stored(db, cmd.farmId).version + 1, done.result.changedPlot, Some(eventId), false, 0)
      && done.result.changedPlot.Some? && done.result.changedPlot.value.plotId == cmd.plotId
  {
    var done := FinishFarm(db, w, cmd, now, eventId).value;
    Cluster.FarmCommitHasEffect(db, w, cmd, now, eventId);
    PlotsWritten(Stored(db, cmd.farmId).snapshot, cmd, now);
    RowIsWritten(db, w, cmd, now, eventId, done);
    AppliedReports(Stored(db, cmd.farmId).snapshot, cmd, now);
    var r := Apply(Unmarshal(Stored(db, cmd.farmId).snapshot), cmd, now).value.result;
    StockIsWritten(db, w, cmd, now, r);
    EventIsAnnounced(db, cmd, now, r);
    PlotIsReported(db, w, cmd, now, eventId, done);
    RestIsKept(db, w, cmd, now, eventId);
  }

  // ---- The numbers in it ----

  /** The catalogue and the defaults for crops it does not know, number by number. */
  lemma Catalogue(cropId: string)
    ensures var wheat, carrot, tomato := cropId in {"1", "WHEAT"}, cropId in {"2", "CARROT"}, cropId in {"3", "TOMATO"};
      && (cropId in CROP_CONFIGS <==> wheat || carrot || tomato)
      && (wheat ==> GetCropConfig(cropId) == Ok(CropConfig(10, 180_000_000_000, 5, 20, 1)))
      && (carrot ==> GetCropConfig(cropId) == Ok(CropConfig(20, 360_000_000_000, 6, 25, 2)))
      && (tomato ==> GetCropConfig(cropId) == Ok(CropConfig(30, 540_000_000_000, 8, 30, 3)))
      && HarvestYieldForCrop(cropId) == (if wheat then 5 else if carrot then 6 else if tomato then 8 else 1)
      && CropIdToItemId(cropId) == (if carrot then 2 else if tomato then 3 else 1)
      && GrowthDurationFor(cropId) / 60_000_000_000 == (if wheat then 3 else if carrot then 6 else if tomato then 9 else 10)
      && GrowthDurationFor(cropId) % 60_000_000_000 == 0
  {
  }

  /** The lookup before the transaction answers exactly the commands that keep receipts and have one. */
  lemma ReceiptAnswersExactly(db: Db, cmd: Command)
    ensures var key := ReceiptKey(cmd.actorUser, cmd.cmdId);
      ReceiptHit(db, cmd) ==
        if cmd.kind in {Plant, Harvest, StealCrop, PetAutoHarvest} && key in db.receipts
        then Some(CommitResult(db.receipts[key], None, None, true, 0)) else None
  {
  }

  /** In the cluster asking again adds the reply of the receipt, if there is one, and changes nothing else. */
  lemma AskingAgainAddsTheReply(w: Cluster.World, cmd: Command)
    requires Cluster.Shape(w)
    ensures var i := Cluster.Home(w, cmd.farmId); var key := ReceiptKey(cmd.actorUser, cmd.cmdId);
      Cluster.Next(w, Cluster.AskFarm(cmd)) ==
        if cmd.kind in {Plant, Harvest, StealCrop, PetAutoHarvest} && key in w.shards[i].receipts
        then w.(farmReplies := w.farmReplies + {(i, key, w.shards[i].receipts[key])}) else w
  {
    ReceiptAnswersExactly(w.shards[Cluster.Home(w, cmd.farmId)], cmd);
  }

  // ---- Over runs ----

  /**
   * Every entry of every farm's log was committed by some step of the run, and the rows admitted it then:
   * its fence, its version, its plot, its seed, its pet, and for a visitor the friendship.
   */
  lemma {:induction false} EveryEntryWasAdmitted(wiring: Wiring, steps: seq<Cluster.Step>, f: int, j: nat) returns (k: nat)
    requires wiring.shardCount > 0 && j < |Cluster.LogOf(Cluster.Run(wiring, steps), f)|
    ensures k < |steps| && steps[k].CommitFarm? && steps[k].cmd.farmId == f
    ensures Cluster.LogOf(Cluster.Run(wiring, steps), f)[j] == Entry(steps[k].cmd, steps[k].at)
    ensures var w := Cluster.Run(wiring, steps[..k]);
      && Cluster.HasFarm(w, f) && |Cluster.LogOf(w, f)| == j && 0 < steps[k].at <= w.clock
      && Admitted(w.shards[Cluster.Home(w, f)], wiring, steps[k].cmd, steps[k].at)
  {
    var front, s := steps[..|steps| - 1], steps[|steps| - 1];
    var w := Cluster.Run(wiring, front);
    if j < |Cluster.LogOf(w, f)| {
      k := EveryEntryWasAdmitted(wiring, front, f, j);
      LogsOnlyGrow(w, s, f);
      assert steps[..k] == front[..k];
    } else {
      k := |steps| - 1;
      NewEntryIsTheStep(w, s, f);
      CommitsExactly(w.shards[Cluster.Home(w, f)], wiring, s.cmd, s.at, s.eventId);
    }
  }

  lemma LogsOnlyGrow(w: Cluster.World, s: Cluster.Step, f: int)
    requires Cluster.Shape(w)
    ensures Cluster.LogOf(w, f) <= Cluster.LogOf(Cluster.Next(w, s), f)
  {
    if !Cluster.WritesHistory(s) { Cluster.StepIsQuiet(w, s); }
  }

  lemma NewEntryIsTheStep(w: Cluster.World, s: Cluster.Step, f: int)
    requires Cluster.Shape(w) && |Cluster.LogOf(w, f)| < |Cluster.LogOf(Cluster.Next(w, s), f)|
    ensures s.CommitFarm? && s.cmd.farmId == f && Cluster.FarmCommits(w, s.cmd, s.at, s.eventId)
    ensures Cluster.LogOf(Cluster.Next(w, s), f) == Cluster.LogOf(w, f) + [Entry(s.cmd, s.at)]
  {
    if !Cluster.WritesHistory(s) { Cluster.StepIsQuiet(w, s); }
  }

  /**
   * Nobody but a friend ever waters or robs a farm: behind every such entry of a log there is a moment of
   * the run at which a friendship row joined its visitor, who is not the owner, with the farm's owner.
   */
  lemma OnlyFriendsVisit(wiring: Wiring, steps: seq<Cluster.Step>, f: int, j: nat) returns (k: nat)
    requires wiring.shardCount > 0 && j < |Cluster.LogOf(Cluster.Run(wiring, steps), f)|
    requires var e := Cluster.LogOf(Cluster.Run(wiring, steps), f)[j]; e.cmd.kind == HelpWater || e.cmd.kind == StealCrop
    ensures var visitor := Cluster.LogOf(Cluster.Run(wiring, steps), f)[j].cmd.actorUser;
      && visitor != f && k < |steps| && steps[k].CommitFarm?
      && Befriended(Cluster.Run(wiring, steps[..k]).shards[f % wiring.shardCount], wiring, f, visitor)
  {
    k := EveryEntryWasAdmitted(wiring, steps, f, j);
    var w := Cluster.Run(wiring, steps[..k]);
    assert Cluster.RowsAtHome(w.shards[Cluster.Home(w, f)].farms, Cluster.Home(w, f), wiring.shardCount);
  }
}
