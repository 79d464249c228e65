/** The pet service's transactions and the scanner's statements, as they run on one shard's tables. */
module PetService {
  import opened Prelude
  import opened FarmDomain
  import opened FarmRules
  import opened FarmTables

  class MySQLPetService {
    var db: Db

    constructor (db: Db)
      ensures this.db == db
    {
      this.db := db;
    }

    /** One attempt: farm, wallet and pet in that order; any refusal rolls everything back. */
    method BuyPetOnce(user: int, now: Time, jitter: nat) returns (r: Result<(), Error>)
      modifies this
      ensures match FinishBuyPet(old(db), user, now, jitter)
              case Ok(after) => r == Ok(()) && db == after
              case Err(e) => r == Err(e) && db == old(db)
    {
      var tx := db;
      if user !in tx.farms {
        return Err(FarmNotFound);
      }
      if user in tx.pets {
        return Err(PetAlreadyEquipped);
      }
      if user !in tx.wallets {
        return Err(Internal);
      }
      if tx.wallets[user] < PET_PRICE {
        return Err(Insufficient);
      }
      tx := tx.(wallets := tx.wallets[user := tx.wallets[user] - PET_PRICE]);
      tx := tx.(pets := tx.pets[user := Pet(true, true)]);
      var next := StoreMillis(now + PET_INTERVAL + jitter * SECOND);
      tx := tx.(farms := tx.farms[user := tx.farms[user].(nextPetAt := Some(next), lease := None)]);
      db := tx;
      return Ok(());
    }

    method SetAutoHarvestOnce(user: int, enabled: bool, now: Time, jitter: nat) returns (r: Result<(), Error>)
      modifies this
      ensures match FinishSetAutoHarvest(old(db), user, enabled, now, jitter)
              case Ok(after) => r == Ok(()) && db == after
              case Err(e) => r == Err(e) && db == old(db)
    {
      var tx := db;
      if user !in tx.farms {
        return Err(FarmNotFound);
      }
      if user !in tx.pets || !tx.pets[user].active {
        return Err(PetNotOwned);
      }
      if tx.pets[user].autoHarvest == enabled && enabled {
        return Ok(());
      }
      tx := tx.(pets := tx.pets[user := tx.pets[user].(autoHarvest := enabled)]);
      var next := None;
      if enabled {
        next := Some(StoreMillis(now + PET_INTERVAL + jitter * SECOND));
      }
      var affected := if tx.farms[user].nextPetAt == next && tx.farms[user].lease.None? then 0 else 1;
      if affected == 0 {
        return Err(FarmNotFound);
      }
      tx := tx.(farms := tx.farms[user := tx.farms[user].(nextPetAt := next, lease := None)]);
      db := tx;
      return Ok(());
    }
  }

  /** A claimed farm: the slot and the snapshot are those of the claim transaction. */
  datatype FarmToScan = FarmToScan(farmId: int, ownerId: int, snapshot: SnapshotJson, nextActionAt: Time, leaseToken: nat)

  datatype ScanOutcome = LeaseLost | SlotMoved | SlotKept | Submit(cmd: Command)

  /** What the scanner takes for mature: only plots stored as GROWING count. */
  predicate ScannerMature(json: SnapshotJson, k: int, now: Time) {
    k in json && json[k].status == Growing && json[k].matureAt != 0 && now >= json[k].matureAt
  }

  /** The plot the scanner proposes. */
  ghost predicate SmallestProposal(json: SnapshotJson, k: int, now: Time) {
    ScannerMature(json, k, now) && forall q :: ScannerMature(json, q, now) ==> k <= q
  }

  predicate NoStoredMature(json: SnapshotJson) { forall k :: k in json ==> json[k].status != PlotStatus.Mature }

  /** A plot stored as MATURE is one the committer would harvest and the scanner never proposes. */
  lemma StoredMatureIsMissed(json: SnapshotJson, k: int, now: Time)
    requires k in json && json[k].status == PlotStatus.Mature
    ensures MatureAt(Unmarshal(json), k, now) && !ScannerMature(json, k, now)
  {
  }

  /** Scanner and committer agree on every plot at every time exactly when no plot is stored as MATURE. */
  lemma ScannerAndCommitterAgree(json: SnapshotJson)
    ensures NoStoredMature(json) <==> forall k, now: Time :: MatureAt(Unmarshal(json), k, now) <==> ScannerMature(json, k, now)
  {
    if !NoStoredMature(json) {
      var k :| k in json && json[k].status == PlotStatus.Mature;
      StoredMatureIsMissed(json, k, 0);
    }
  }

  /** The claim order: by slot, then by farm. */
  predicate Before(db: Db, f: int, g: int) {
    && f in db.farms && g in db.farms && db.farms[f].nextPetAt.Some? && db.farms[g].nextPetAt.Some?
    && (db.farms[f].nextPetAt.value < db.farms[g].nextPetAt.value
        || (db.farms[f].nextPetAt.value == db.farms[g].nextPetAt.value && f < g))
  }

  predicate Due(db: Db, f: int, now: Time, locked: set<int>) { Claimable(db, f, now) && f !in locked }

  /** By slot, and farms of one slot by identifier. */
  predicate InSchedule(farms: seq<FarmToScan>) {
    forall j, k :: 0 <= j < k < |farms| ==>
      || farms[j].nextActionAt < farms[k].nextActionAt
      || (farms[j].nextActionAt == farms[k].nextActionAt && farms[j].farmId < farms[k].farmId)
  }

  /** The farm's slot is the one read, it has come, and no lease runs past now. */
  predicate IsDue(rows: map<int, FarmRow>, farm: FarmToScan, now: Time) {
    && farm.farmId in rows && rows[farm.farmId].nextPetAt == Some(farm.nextActionAt) && farm.nextActionAt <= now
    && (rows[farm.farmId].lease.None? || rows[farm.farmId].lease.value.until <= now)
  }

  predicate LeaseRuns(lease: Option<Lease>, token: nat, now: Time) {
    lease.Some? && lease.value.token == token && now < lease.value.until
  }

  class PetScanner {
    var db: Db
    const leaseTtl: Time

    constructor (db: Db, leaseTtl: Time)
      ensures this.db == db && this.leaseTtl == leaseTtl
    {
      this.db, this.leaseTtl := db, leaseTtl;
    }

    /** The first due farm among candidates that no other transaction holds locked. */
    method FirstDue(candidates: set<int>, now: Time, locked: set<int>) returns (best: Option<int>)
      requires candidates <= db.farms.Keys
      ensures best.Some? ==> best.value in candidates && Due(db, best.value, now, locked)
      ensures best.Some? ==> forall g :: g in candidates && g != best.value && Due(db, g, now, locked) ==> Before(db, best.value, g)
      ensures best.None? ==> forall g :: g in candidates ==> !Due(db, g, now, locked)
    {
      best := None;
      var rest := candidates;
      while rest != {}
        invariant rest <= candidates
        invariant best.Some? ==> best.value in candidates && Due(db, best.value, now, locked)
        invariant best.Some? ==> forall g :: g in candidates && g !in rest && g != best.value && Due(db, g, now, locked) ==> Before(db, best.value, g)
        invariant best.None? ==> forall g :: g in candidates && g !in rest ==> !Due(db, g, now, locked)
        decreases rest
      {
        var f := Pick(rest);
        rest := rest - {f};
        if Claimable(db, f, now) && f !in locked && (best.None? || Before(db, f, best.value)) {
          best := Some(f);
        }
      }
    }

    /**
     * Claims at most batchSize due farms in schedule order, skipping locked ones, and gives each its own
     * token; nothing else moves, and an unclaimed due farm is left only when the batch is full.
     */
    method ClaimDue(batchSize: nat, now: Time, locked: set<int>, firstToken: nat) returns (farms: seq<FarmToScan>)
      modifies this`db
      ensures |farms| <= batchSize
      ensures forall k :: 0 <= k < |farms| ==> Claimed(old(db), farms[k], now, locked, firstToken + k)
      ensures forall j, k :: 0 <= j < k < |farms| ==> Before(old(db), farms[j].farmId, farms[k].farmId)
      ensures forall g :: Due(old(db), g, now, locked) && !IsClaimed(farms, g) ==>
                |farms| == batchSize && forall k :: 0 <= k < |farms| ==> Before(old(db), farms[k].farmId, g)
      ensures InSchedule(farms) && forall k :: 0 <= k < |farms| ==> IsDue(old(db).farms, farms[k], now) && farms[k].farmId !in locked
      ensures db == old(db).(farms := db.farms) && db.farms.Keys == old(db).farms.Keys
      ensures forall g :: g in db.farms && !IsClaimed(farms, g) ==> db.farms[g] == old(db).farms[g]
      ensures forall k :: 0 <= k < |farms| ==>
                farms[k].farmId in db.farms && farms[k].farmId in old(db).farms
                && db.farms[farms[k].farmId] == old(db).farms[farms[k].farmId].(lease := Some(Lease(firstToken + k, now + leaseTtl)))
    {
      farms := SelectDue(batchSize, now, locked, firstToken);
      SelectedInSchedule(farms, now, locked, firstToken);
      SelectedIsStored(farms, now, locked, firstToken);
      LeaseAll(farms, now);
    }

    lemma SelectedIsStored(farms: seq<FarmToScan>, now: Time, locked: set<int>, firstToken: nat)
      requires forall k :: 0 <= k < |farms| ==> Claimed(db, farms[k], now, locked, firstToken + k)
      requires forall j, k :: 0 <= j < k < |farms| ==> Before(db, farms[j].farmId, farms[k].farmId)
      ensures forall k :: 0 <= k < |farms| ==> farms[k].farmId in db.farms && farms[k].leaseToken == firstToken + k
      ensures forall j, k :: 0 <= j < k < |farms| ==> farms[j].farmId != farms[k].farmId
    {
    }

    /** The claim's updates: each selected farm gets the lease of its token. */
    method LeaseAll(farms: seq<FarmToScan>, now: Time)
      requires forall k :: 0 <= k < |farms| ==> farms[k].farmId in db.farms
      requires forall j, k :: 0 <= j < k < |farms| ==> farms[j].farmId != farms[k].farmId
      modifies this`db
      ensures db == old(db).(farms := db.farms) && db.farms.Keys == old(db).farms.Keys
      ensures forall g :: g in db.farms && !IsClaimed(farms, g) ==> db.farms[g] == old(db).farms[g]
      ensures forall k :: 0 <= k < |farms| ==>
                db.farms[farms[k].farmId] == old(db).farms[farms[k].farmId].(lease := Some(Lease(farms[k].leaseToken, now + leaseTtl)))
    {
      var k := 0;
      var tx := db;
      while k < |farms|
        invariant 0 <= k <= |farms|
        invariant tx == db.(farms := tx.farms) && tx.farms.Keys == db.farms.Keys
        invariant forall g :: g in tx.farms && !IsClaimed(farms[..k], g) ==> tx.farms[g] == db.farms[g]
        invariant forall j :: 0 <= j < k ==>
                    tx.farms[farms[j].farmId] == db.farms[farms[j].farmId].(lease := Some(Lease(farms[j].leaseToken, now + leaseTtl)))
      {
        var f := farms[k].farmId;
        assert !IsClaimed(farms[..k], f);
        tx := Leased(tx, f, farms[k].leaseToken, now + leaseTtl);
        assert forall g :: IsClaimed(farms[..k + 1], g) <==> IsClaimed(farms[..k], g) || g == f by {
          assert farms[..k + 1] == farms[..k] + [farms[k]];
        }
        k := k + 1;
      }
      assert farms[..k] == farms;
      db := tx;
    }

    predicate IsClaimed(farms: seq<FarmToScan>, f: int) { exists k :: 0 <= k < |farms| && farms[k].farmId == f }

    predicate Claimed(was: Db, farm: FarmToScan, now: Time, locked: set<int>, token: nat) {
      var f := farm.farmId;
      && Due(was, f, now, locked)
      && farm == FarmToScan(f, was.farms[f].ownerId, was.farms[f].snapshot, was.farms[f].nextPetAt.value, token)
    }

    lemma SelectedInSchedule(farms: seq<FarmToScan>, now: Time, locked: set<int>, firstToken: nat)
      requires forall k :: 0 <= k < |farms| ==> Claimed(db, farms[k], now, locked, firstToken + k)
      requires forall j, k :: 0 <= j < k < |farms| ==> Before(db, farms[j].farmId, farms[k].farmId)
      ensures InSchedule(farms) && forall k :: 0 <= k < |farms| ==> IsDue(db.farms, farms[k], now) && farms[k].farmId !in locked
    {
    }

    method SelectDue(batchSize: nat, now: Time, locked: set<int>, firstToken: nat) returns (farms: seq<FarmToScan>)
      ensures |farms| <= batchSize
      ensures forall k :: 0 <= k < |farms| ==> Claimed(db, farms[k], now, locked, firstToken + k)
      ensures forall j, k :: 0 <= j < k < |farms| ==> Before(db, farms[j].farmId, farms[k].farmId)
      ensures forall g :: Due(db, g, now, locked) && !IsClaimed(farms, g) ==>
                |farms| == batchSize && forall k :: 0 <= k < |farms| ==> Before(db, farms[k].farmId, g)
    {
      farms := [];
      var rest := db.farms.Keys;
      while |farms| < batchSize
        invariant |farms| <= batchSize && rest <= db.farms.Keys
        invariant forall k :: 0 <= k < |farms| ==> Claimed(db, farms[k], now, locked, firstToken + k)
        invariant forall j, k :: 0 <= j < k < |farms| ==> Before(db, farms[j].farmId, farms[k].farmId)
        invariant forall g :: Due(db, g, now, locked) ==> (IsClaimed(farms, g) <==> g !in rest)
        invariant forall g, k :: 0 <= k < |farms| && g in rest && Due(db, g, now, locked) ==> Before(db, farms[k].farmId, g)
        decreases batchSize - |farms|
      {
        var f := FirstDue(rest, now, locked);
        if f.None? {
          return;
        }
        var row := db.farms[f.value];
        ghost var was := farms;
        farms := farms + [FarmToScan(f.value, row.ownerId, row.snapshot, row.nextPetAt.value, firstToken + |farms|)];
        forall g ensures IsClaimed(farms, g) <==> IsClaimed(was, g) || g == f.value {
          if IsClaimed(was, g) {
            var k :| 0 <= k < |was| && was[k].farmId == g;
            assert farms[k].farmId == g;
          }
          assert farms[|was|].farmId == f.value;
        }
        rest := rest - {f.value};
      }
    }

    method RenewLease(farmId: int, token: nat, now: Time) returns (renewed: bool)
      modifies this`db
      ensures renewed <==> farmId in old(db).farms && HoldsLease(old(db).farms[farmId], token, now)
      ensures db == FinishRenew(old(db), farmId, token, now, leaseTtl)
      ensures renewed <==> farmId in old(db).farms && LeaseRuns(old(db).farms[farmId].lease, token, now)
      ensures renewed ==> farmId in db.farms && db.farms[farmId] == old(db).farms[farmId].(lease := Some(Lease(token, now + leaseTtl)))
    {
      renewed := farmId in db.farms && HoldsLease(db.farms[farmId], token, now);
      if renewed {
        db := Leased(db, farmId, token, now + leaseTtl);
      }
    }

    method PushNextPetAction(farmId: int, expected: Time, token: nat, now: Time) returns (moved: bool)
      modifies this`db
      ensures db == FinishPush(old(db), farmId, expected, token, now)
      ensures moved <==> farmId in old(db).farms && HoldsLease(old(db).farms[farmId], token, now) && old(db).farms[farmId].nextPetAt == Some(expected)
      ensures moved ==> LeaseRuns(old(db).farms[farmId].lease, token, now)
    {
      moved := farmId in db.farms && db.farms[farmId].nextPetAt == Some(expected) && HoldsLease(db.farms[farmId], token, now);
      if moved {
        db := db.(farms := db.farms[farmId := db.farms[farmId].(nextPetAt := Some(StoreMillis(now + PET_INTERVAL)), lease := None)]);
      }
    }

    predicate Sorted(s: seq<int>) { forall i, j :: 0 <= i < j < |s| ==> s[i] <= s[j] }

    method InsertSorted(s: seq<int>, k: int) returns (r: seq<int>)
      requires Sorted(s)
      ensures Sorted(r) && forall q :: q in r <==> q in s || q == k
    {
      var at := 0;
      while at < |s| && s[at] < k
        invariant 0 <= at <= |s|
        invariant forall j :: 0 <= j < at ==> s[j] < k
      {
        at := at + 1;
      }
      r := s[..at] + [k] + s[at..];
      assert s == s[..at] + s[at..];
    }

    /** Collects the mature plots, sorts them, and takes the first. */
    method FindSmallestMaturePlot(json: SnapshotJson, now: Time) returns (plot: Option<int>)
      ensures plot.Some? ==> SmallestProposal(json, plot.value, now)
      ensures plot.None? ==> forall k :: !ScannerMature(json, k, now)
    {
      var mature: seq<int> := [];
      var rest := json.Keys;
      while rest != {}
        invariant rest <= json.Keys && Sorted(mature)
        invariant forall k :: k in mature <==> ScannerMature(json, k, now) && k !in rest
        decreases rest
      {
        var k := Pick(rest);
        rest := rest - {k};
        if ScannerMature(json, k, now) {
          mature := InsertSorted(mature, k);
        }
      }
      assert forall i :: 0 <= i < |mature| ==> mature[i] in mature;
      if mature == [] {
        return None;
      }
      return Some(mature[0]);
    }

    /**
     * One claimed farm: without the lease nothing happens; without a mature plot the slot moves on; else
     * the smallest mature plot of the claimed snapshot is proposed for exactly the claimed slot. The key
     * names farm, slot and plot.
     */
    method ProcessClaimedFarm(farm: FarmToScan, key: string, now: Time) returns (outcome: ScanOutcome)
      modifies this`db
      ensures outcome == LeaseLost <==> farm.farmId !in old(db).farms || !HoldsLease(old(db).farms[farm.farmId], farm.leaseToken, now)
      ensures outcome == LeaseLost ==> db == old(db)
      ensures outcome.Submit? ==>
        && db == FinishRenew(old(db), farm.farmId, farm.leaseToken, now, leaseTtl)
        && outcome.cmd.kind == PetAutoHarvest && outcome.cmd.farmId == farm.farmId && outcome.cmd.actorUser == farm.ownerId
        && outcome.cmd.petScheduledAt == farm.nextActionAt
        && SmallestProposal(farm.snapshot, outcome.cmd.plotId, now)
      ensures outcome == SlotMoved || outcome == SlotKept ==>
        && (forall k :: !ScannerMature(farm.snapshot, k, now))
        && db == FinishPush(FinishRenew(old(db), farm.farmId, farm.leaseToken, now, leaseTtl), farm.farmId, farm.nextActionAt, farm.leaseToken, now)
      ensures outcome == SlotMoved ==> farm.farmId in db.farms && db.farms[farm.farmId].nextPetAt == Some(StoreMillis(now + PET_INTERVAL))
      ensures outcome == SlotKept ==> db == FinishRenew(old(db), farm.farmId, farm.leaseToken, now, leaseTtl)
      ensures leaseTtl > 0 && (outcome == SlotMoved || outcome == SlotKept) ==>
        (outcome == SlotMoved <==> old(db).farms[farm.farmId].nextPetAt == Some(farm.nextActionAt))
    {
      var renewed := RenewLease(farm.farmId, farm.leaseToken, now);
      if !renewed {
        return LeaseLost;
      }
      var plot := FindSmallestMaturePlot(farm.snapshot, now);
      if plot.None? {
        var moved := PushNextPetAction(farm.farmId, farm.nextActionAt, farm.leaseToken, now);
        return if moved then SlotMoved else SlotKept;
      }
      return Submit(Command(key, farm.farmId, farm.ownerId, PetAutoHarvest, plot.value, "", 0, 0, 0, farm.nextActionAt));
    }
  }
}
