/** What the pet statements do, told in terms of the rows a shard stores. */
module PetAdmission {
  import opened Prelude
  import opened FarmDomain
  import opened FarmTables
  import opened FarmAdmission
  import Cluster

  /** Half a minute and up to some seconds of jitter from now, to the nearest millisecond, and no lease. */
  ghost predicate OpensSlot(row: FarmRow, row': FarmRow, now: Time, jitter: nat) {
    && row'.nextPetAt.Some? && NearestTo(row'.nextPetAt.value, now + 30_000_000_000 + jitter * 1_000_000_000)
    && row' == row.(nextPetAt := row'.nextPetAt, lease := None)
  }

  /**
   * A pet is bought if and only if the farm is there, no pet is, and the wallet holds two hundred coins; it
   * costs exactly those, is switched on, and opens the farm's slot. Everything else stays.
   */
  lemma PetsAreBoughtExactly(db: Db, user: int, now: Time, jitter: nat)
    ensures var r := FinishBuyPet(db, user, now, jitter);
      && (r == Err(FarmNotFound) <==> user !in db.farms)
      && (r == Err(PetAlreadyEquipped) <==> user in db.farms && user in db.pets)
      && (r == Err(Internal) <==> user in db.farms && user !in db.pets && user !in db.wallets)
      && (r == Err(Insufficient) <==> user in db.farms && user !in db.pets && user in db.wallets && db.wallets[user] < 200)
      && (r.Ok? <==> user in db.farms && user !in db.pets && user in db.wallets && db.wallets[user] >= 200)
      && (r.Ok? ==>
            && user in r.value.farms && OpensSlot(db.farms[user], r.value.farms[user], now, jitter)
            && r.value == db.(wallets := db.wallets[user := db.wallets[user] - 200], pets := db.pets[user := Pet(true, true)],
                              farms := db.farms[user := r.value.farms[user]]))
  {
    NearestMillisecond(now + 30_000_000_000 + jitter * 1_000_000_000);
  }

  predicate OwnsPet(db: Db, user: int) { user in db.farms && user in db.pets && db.pets[user].active }

  /**
   * The switch works for an active pet of a farm: on when on changes nothing, on opens a slot, off closes it;
   * off twice, or on when the slot would not move, is refused as if the farm were missing.
   */
  lemma SwitchesExactly(db: Db, user: int, enabled: bool, now: Time, jitter: nat)
    ensures var r := FinishSetAutoHarvest(db, user, enabled, now, jitter);
      && (user !in db.farms ==> r == Err(FarmNotFound))
      && (user in db.farms && !OwnsPet(db, user) ==> r == Err(PetNotOwned))
      && (OwnsPet(db, user) && db.pets[user].autoHarvest && enabled ==> r == Ok(db))
      && (OwnsPet(db, user) && !(db.pets[user].autoHarvest && enabled) ==> Switched(db, user, enabled, now, jitter, r))
  {
    NearestMillisecond(now + 30_000_000_000 + jitter * 1_000_000_000);
  }

  ghost predicate Switched(db: Db, user: int, enabled: bool, now: Time, jitter: nat, r: Result<Db, Error>)
    requires OwnsPet(db, user)
  {
    var row := db.farms[user];
    && (r.Err? <==>
          if enabled then row.lease.None? && row.nextPetAt.Some? && NearestTo(row.nextPetAt.value, now + 30_000_000_000 + jitter * 1_000_000_000)
          else row.lease.None? && row.nextPetAt.None?)
    && (r.Err? ==> r.error == FarmNotFound)
    && (r.Ok? ==>
          && user in r.value.farms
          && (if enabled then OpensSlot(row, r.value.farms[user], now, jitter)
              else r.value.farms[user] == row.(nextPetAt := None, lease := None))
          && r.value == db.(pets := db.pets[user := Pet(true, enabled)], farms := db.farms[user := r.value.farms[user]]))
  }

  /** In the cluster a purchase takes effect for at most three seconds of jitter and a sound clock, the switch for as much jitter. */
  lemma ServiceStepsExactly(w: Cluster.World, user: int, at: Time, enabled: bool, jitter: nat)
    requires Cluster.Shape(w)
    ensures var i := Cluster.Home(w, user);
      var bought, switched := FinishBuyPet(w.shards[i], user, at, jitter), FinishSetAutoHarvest(w.shards[i], user, enabled, w.clock, jitter);
      && Cluster.AfterBuyPet(w, user, at, jitter) ==
           (if jitter <= 3 && 0 < at && at <= w.clock && bought.Ok? then w.(shards := w.shards[i := bought.value]) else w)
      && Cluster.AfterSetAutoHarvest(w, user, enabled, jitter) ==
           (if jitter <= 3 && switched.Ok? then w.(shards := w.shards[i := switched.value]) else w)
  {
  }

  // ---- The scanner's statements ----

  /** A lease in the row that runs past now. */
  predicate LeasedAt(db: Db, f: int, now: Time) {
    f in db.farms && db.farms[f].lease.Some? && now < db.farms[f].lease.value.until
  }

  predicate LeasedTo(db: Db, f: int, token: nat, now: Time) { LeasedAt(db, f, now) && db.farms[f].lease.value.token == token }

  /** A farm may be claimed if and only if its owner's pet is on, its slot has come, and no lease runs past now. */
  lemma ClaimableExactly(db: Db, f: int, now: Time)
    ensures Claimable(db, f, now) <==>
      && f in db.farms && db.farms[f].ownerId in db.pets
      && db.pets[db.farms[f].ownerId].active && db.pets[db.farms[f].ownerId].autoHarvest
      && db.farms[f].nextPetAt.Some? && db.farms[f].nextPetAt.value <= now && !LeasedAt(db, f, now)
  {
  }

  /** A renewal prolongs the lease if and only if this very claim still holds one, and does nothing else. */
  lemma RenewsExactly(db: Db, f: int, token: nat, now: Time, ttl: Time)
    ensures FinishRenew(db, f, token, now, ttl) ==
      if LeasedTo(db, f, token, now) then db.(farms := db.farms[f := db.farms[f].(lease := Some(Lease(token, now + ttl)))]) else db
  {
  }

  /** The slot moves on by half a minute if and only if this very claim holds a lease and the slot is the claimed one. */
  lemma PushesExactly(db: Db, f: int, expected: Time, token: nat, now: Time)
    ensures var db' := FinishPush(db, f, expected, token, now);
      if LeasedTo(db, f, token, now) && db.farms[f].nextPetAt == Some(expected)
      then f in db'.farms && OpensSlot(db.farms[f], db'.farms[f], now, 0) && db' == db.(farms := db.farms[f := db'.farms[f]])
      else db' == db
  {
    NearestMillisecond(now + 30_000_000_000);
  }

  /**
   * In the cluster a claim takes effect if and only if its token is new, its clock sound, and the farm
   * claimable; then it holds the lease, and until that has run out nobody else's claim does anything.
   */
  lemma ClaimsExactly(w: Cluster.World, f: int, token: nat, at: Time, ttl: Time)
    requires Cluster.Shape(w)
    ensures var i := Cluster.Home(w, f); var v := Cluster.Next(w, Cluster.ClaimPet(f, token, at, ttl));
      && i < |v.shards|
      && (v != w <==> Claimable(w.shards[i], f, at) && at <= w.clock && token !in w.jobs)
      && (v != w ==>
            && v.shards == w.shards[i := w.shards[i].(farms := w.shards[i].farms[f := w.shards[i].farms[f].(lease := Some(Lease(token, at + ttl)))])]
            && v.jobs == w.jobs[token := Cluster.Job(f, w.shards[i].farms[f].nextPetAt.value, at)])
      && (forall later, other, ttl' :: LeasedAt(w.shards[i], f, later) ==> Cluster.AfterClaimPet(w, f, other, later, ttl') == w)
  {
    var v := Cluster.AfterClaimPet(w, f, token, at, ttl);
    if Claimable(w.shards[Cluster.Home(w, f)], f, at) && at <= w.clock && token !in w.jobs { assert token in v.jobs; }
  }

  /** A scanner's later statements act for the job they were claimed for, and no earlier than it. */
  lemma JobsActExactly(w: Cluster.World, token: nat, at: Time, ttl: Time)
    requires Cluster.Shape(w)
    ensures token !in w.jobs || at < w.jobs[token].claimedAt || w.clock < at ==>
      Cluster.AfterRenewLease(w, token, at, ttl) == w && Cluster.AfterPushPet(w, token, at) == w
    ensures token in w.jobs && w.jobs[token].claimedAt <= at <= w.clock ==>
      var f, i := w.jobs[token].farmId, Cluster.Home(w, w.jobs[token].farmId);
      && Cluster.AfterRenewLease(w, token, at, ttl).shards == w.shards[i := FinishRenew(w.shards[i], f, token, at, ttl)]
      && Cluster.AfterPushPet(w, token, at).shards == w.shards[i := FinishPush(w.shards[i], f, w.jobs[token].expected, token, at)]
  {
  }
}
