/** The consumer that credits a cross-shard theft to the thief's shard. */
module StealProjector {
  import opened Prelude
  import opened FarmDomain
  import opened FarmTables
  import opened Cluster

  datatype Verdict = Done | Refused

  /** What Handle demands of a theft before it looks at shards. */
  predicate WellFormed(eventId: Option<nat>, p: Payload)
    requires p.Stolen?
  {
    && eventId.Some?
    && p.ownerId > 0 && p.actorId > 0 && p.actorId != p.ownerId
    && p.stolenAmount > 0 && p.cropId != ""
  }

  class CrossShardStealProjector {
    var pools: seq<Db>

    constructor (pools: seq<Db>)
      requires pools != []
      ensures this.pools == pools
    {
      this.pools := pools;
    }

    /** Ledger row and stock in one transaction; a ledger row that is already there ends it without change. */
    method Credit(j: nat, actor: int, cropId: string, quantity: int, eventId: nat)
      requires j < |pools|
      modifies this
      ensures pools == old(pools)[j := FinishCredit(old(pools)[j], actor, cropId, quantity, eventId)]
    {
      var tx := pools[j];
      var key := StealLedgerKey(actor, eventId);
      if key in tx.ledger {
        return;
      }
      tx := tx.(ledger := tx.ledger[key := LedgerRow(0, 0, 0)]);
      tx := tx.(inventory := AddItem(tx.inventory, InventoryKey(actor, CropItem, CropIdToItemId(cropId)), quantity));
      pools := pools[j := tx];
    }

    /**
     * Refuses exactly the malformed thefts, for the consumer to retry and park; ignores other events and
     * thefts within a shard; credits every other theft on the thief's shard and nowhere else.
     */
    method Handle(eventId: Option<nat>, p: Payload) returns (verdict: Verdict)
      requires pools != []
      modifies this
      ensures verdict == Refused <==> p.Stolen? && !WellFormed(eventId, p)
      ensures var n := |old(pools)|;
        if p.Stolen? && WellFormed(eventId, p) && ShardOf(p.ownerId, n) != ShardOf(p.actorId, n)
        then pools == old(pools)[ShardOf(p.actorId, n) :=
               FinishCredit(old(pools)[ShardOf(p.actorId, n)], p.actorId, p.cropId, p.stolenAmount, eventId.value)]
        else pools == old(pools)
    {
      if !p.Stolen? {
        return Done;
      }
      if eventId.None? {
        return Refused;
      }
      if p.ownerId <= 0 || p.actorId <= 0 || p.actorId == p.ownerId || p.stolenAmount <= 0 || p.cropId == "" {
        return Refused;
      }
      var ownerShard, actorShard := ShardOf(p.ownerId, |pools|), ShardOf(p.actorId, |pools|);
      if ownerShard == actorShard {
        return Done;
      }
      Credit(actorShard, p.actorId, p.cropId, p.stolenAmount, eventId.value);
      return Done;
    }
  }

  /** Handling one delivered event is one step of the cluster. */
  lemma HandleIsADelivery(w: World, eventId: nat, p: Payload)
    requires Shape(w) && (eventId, p) in w.broker && p.Stolen?
    ensures var n := |w.shards|; var v := Next(w, DeliverStolen(eventId, p));
      v.shards == if WellFormed(Some(eventId), p) && ShardOf(p.ownerId, n) != ShardOf(p.actorId, n)
                  then w.shards[ShardOf(p.actorId, n) := FinishCredit(w.shards[ShardOf(p.actorId, n)], p.actorId, p.cropId, p.stolenAmount, eventId)]
                  else w.shards
  {
  }

  /** Whatever arrives a second time, for whatever reason, changes nothing. */
  lemma RedeliveryCreditsNothing(w: World, eventId: nat, p: Payload)
    requires Shape(w)
    ensures var v := Next(w, DeliverStolen(eventId, p)); Shape(v) && Next(v, DeliverStolen(eventId, p)) == v
  {
    StepKeepsShape(w, DeliverStolen(eventId, p));
    var v := Next(w, DeliverStolen(eventId, p));
    if (eventId, p) in w.broker && Creditable(w, p) {
      var j := Home(w, p.actorId);
      assert StealLedgerKey(p.actorId, eventId) in v.shards[j].ledger;
      assert v.shards[j := v.shards[j]] == v.shards;
    }
  }
}
