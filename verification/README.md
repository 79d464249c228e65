# Verified model of the farm backend

This project models the state machines of a farm game backend and proves what they keep when they run
together. MySQL transactions, Redis scripts and etcd transactions are atomic steps over explicit tables;
between any two of them anything else may happen: other attempts, crashes, duplicates, late deliveries,
expired leases, reaped rows.

How it is laid out:

- `Prelude` - options, results, 64-bit wrap-around, sums over maps and sequences.
- `FarmDomain`, `FarmRules` - plots, growth, crop prices, what each command does to a farm, the stored
  form of a snapshot, logs of commands and growth cycles.
- `FarmTables`, `FarmCommitter` - one shard's tables with the specification of every transaction, and the
  committer as a class proved against it.
- `FarmAdmission`, `EconomyAdmission`, `PetAdmission` - which commands commit, which refusal any other gets,
  and what a commit writes, told from the stored rows alone.
- `Outbox`, `OutboxRelay`, `RelayOnTheBus`, `OutboxRetries`, `ConsumerDedup`, `EventConsumer`,
  `StealProjector`, `TheftDelivery` - from a committed event to its effect on another shard, with the retention
  reaper: the parts, how they join, and how often an event is tried and handled.
- `Cluster` - all shards, broker, relays and scanners as one transition system; `FarmLog`,
  `CropConservation`, `CropTheorems`, `EconomyOnce`, `Accounts`, `PetSlots` and `PetEarlyHarvest` prove
  theorems over its runs.
- `PetService` - the pet service and the pet scanner as classes.
- `ActorMachine`, `ActorInvariants`, `ActorOrder`, `ActorOutcomes`, `ActorTheorems`, `ActorAnswers`,
  `ActorIdle`, `ActorWedge`, `ActorWedgeRun`, `ActorRuntime` - the actor runtime: transition system,
  invariants, theorems, what it answers, when an actor goes, when it can stand still, and the runtime as a
  class.
- `FriendSaga`, `FriendCluster`, `FriendCompensation` - cross-shard friendship: the local transactions as a
  class, all runs, and what compensating a dead request can lead to.
- `RouteStore`, `RouteLeases`, `RouteControl`, `RouteWatch` - route ownership in etcd and the leases it hangs
  on, rendezvous owners, controllers, resolvers and what they see of a run.
- `ReadCache`, `Coalescer`, `Limiter`, `ShardId`, `Backfill` - the self-contained components.

The pattern is the same throughout. Code that changes things in place is a class whose methods equal, by
their postconditions, a function on values; what such a function does is told a second time from the stored
rows, with the numbers written out; a transition system is made of those functions; and the theorems speak of
every run of it.

What the model takes as given:

- The unique keys and checks of the schema in `migrations/mysql`: receipts by user and command, ledger
  rows by user, business type and business identifier, outbox rows by event identifier, friendship edges by
  user and friend and by event, friendships by ordered pair, non-negative wallets.
- Farm, wallet and inventory rows exist from account creation
  (`server/internal/account/infrastructure/mysql_account_service.go`, from line 506).
- One clock that never runs backwards, for everything but identifiers and the limiter. A transaction may use
  a time it read earlier. Farm times are nanoseconds; `next_pet_action_at` is a millisecond column and
  rounds to the nearest, half up.
- Coins of task rewards and mails arrive in steps of their own, which add to a wallet and write no ledger
  row (`server/internal/task/infrastructure/mysql_task_service.go:191-199`,
  `server/internal/mail/infrastructure/mysql_mail_service.go:253-259`).
- Identifiers drawn as UUIDs do not repeat. Hashes are functions of their input about which nothing else
  is known.

Where the code does not do what its comments say, the model follows the code and states exactly when the
promise holds:

- the price guard does not bound negative prices;
- pet harvests can come early, by less than half a millisecond, exactly when the column rounded the last
  one's time down and a plot is mature;
- a consumer group without a committed offset starts at the end of its partition, so a crash before the first
  commit can skip events: a restart is safe exactly when an offset is committed or nothing is unsettled;
- a cached entry stays fresh exactly when every shared read was new enough for the generation of the reader
  that joined it; reads shared within one generation are;
- a compensated friend request stays within its shard exactly when no relay holds it and the broker never
  took it, or the other direction was compensated too;
- the replay of a lost attempt needs an identifier that fills its column;
- the actor runtime can stand still for good exactly when it has two schedulers and room for enough actors;
- identifiers repeat exactly when two separated stretches of the clock agree modulo the time range and share a
  sequence;
- the limiter answers as if it never evicted a bucket exactly when the ttl, less twice the time by which clock
  readings can take effect late, lets the burst flow in;
- an event is given up after its retries as long as failures are reported by relays that still hold its row; a
  late report from an expired lock revives a dead event exactly when it read a count below the limit;
- the backfill fails on a crossing friendship whose event identifier is longer than 36 characters.

## Model

| member | source | states |
|---|---|---|
| `FarmDomain.HarvestYieldForCrop` | server/internal/farm/infrastructure/crop_config.go:60-65 | the yield of any crop, known or not, is at least one |
| `FarmDomain.GrowthDurationFor` | server/internal/farm/infrastructure/committer_mysql.go:296-304 | every crop, also one the catalogue does not know, grows for at least three minutes, so two watering minutes never use it up |
| `FarmDomain.AcceptedPricesAreSafe` | server/internal/farm/infrastructure/crop_config.go:37-56 | for every price table and every entry the guard accepts: price times every legal quantity stays in int64 if and only if the price is not below the negative bound |
| `FarmDomain.NegativePriceOverflows` | server/internal/farm/infrastructure/crop_config.go:46-55 | a concrete negative price passes the guard and overflows: the promise of the guard needs the lower bound it does not check |
| `FarmDomain.StageNeverGoesBack` | server/internal/farm/domain/farm.go:46-81 | between any two times, with or without a watering in between, the visible stage of a growing plot does not go back, and the plot stays well formed |
| `FarmDomain.StageMatchesStatus` | server/internal/farm/domain/farm.go:46-81 | the computed stage is ripe exactly when the effective status is mature |
| `FarmDomain.LateFirstWateringIsLost` | server/internal/farm/infrastructure/committer_mysql.go:408-429 | a first watering changes a plot if and only if it comes before half of the growth time |
| `FarmRules.SnapshotRoundTrip` | server/internal/farm/infrastructure/committer_mysql.go:1091-1136 | storing and reloading gives the plots back if and only if each sits under its own identifier; what comes back always does |
| `FarmRules.ApplyChangesOnePlot` | server/internal/farm/infrastructure/committer_mysql.go:285-391 | a command replaces exactly its own plot, with the plot it reports, and that plot is well formed |
| `FarmRules.ApplyKeepsValid` | server/internal/farm/infrastructure/committer_mysql.go:285-391 | no command leads from a well-formed farm to an ill-formed one |
| `FarmRules.CycleLaw` | server/internal/farm/infrastructure/committer_mysql.go:285-429 | over any committed stretch of one growth cycle: crop and planting time stay, maturity plus watered minutes stays planting time plus duration, at most two waterings count, thefts account for every missing unit, and one unit is always left |
| `FarmRules.CycleStageMonotone` | server/internal/farm/domain/farm.go:61-81 | the stage seen at any time is not ahead of the stage seen later in the same cycle, whatever was watered or stolen in between |
| `FarmRules.UnwateredSeedlingIsNeverShortened` | server/internal/farm/infrastructure/committer_mysql.go:408-429 | a plot not watered in the first half of its growth time is never shortened by later waterings |
| `FarmRules.PlantedCropIsFullyAccountedFor` | server/internal/farm/infrastructure/committer_mysql.go:285-391 | from planting to harvest, the harvest plus all thefts is the configured yield of the planted crop |
| `FarmCommitter.Snapshot.SmallestMaturePlotId` | server/internal/farm/infrastructure/committer_mysql.go:393-406 | the running minimum over the unordered plots is the smallest mature plot, or there is none |
| `FarmCommitter.Snapshot.ApplyCmd` | server/internal/farm/infrastructure/committer_mysql.go:285-391 | applying a command in place gives the plots, the report or the error of the rules, and a refused command changes nothing |
| `FarmCommitter.MySQLCommitter.ApplyEconomicSideEffects` | server/internal/farm/infrastructure/committer_mysql.go:941-1004 | inventory and pet schedule move as specified, or the command is refused |
| `FarmCommitter.MySQLCommitter.Authorize` | server/internal/farm/infrastructure/committer_mysql.go:176-235 | the first failing check, in the order of the transaction, decides the error; a visitor is refused as no friend if and only if fence and version are right, the farm is not their own, and no friendship row joins them with its owner |
| `FarmCommitter.MySQLCommitter.CheckFriendship` | server/internal/farm/infrastructure/committer_mysql.go:1142-1173 | an ACTIVE directed edge from the owner, where edges are consulted, or the row of the ordered pair makes friends, and nothing else does |
| `FarmCommitter.MySQLCommitter.CommitFarmCommandOnce` | server/internal/farm/infrastructure/committer_mysql.go:150-270 | a receipt answers without touching anything; otherwise the command commits if and only if the stored rows admit it and its keys are free, all tables change as specified, and any refusal is the one the rows call for and changes nothing |
| `FarmCommitter.MySQLCommitter.UpsertReceiptOutbox` | server/internal/farm/infrastructure/committer_mysql.go:503-572 | snapshot, receipt and outbox row are written together; a key already taken writes none |
| `FarmCommitter.MySQLCommitter.CommitEconomicTx` | server/internal/farm/infrastructure/committer_mysql.go:667-830 | an economic command replays its ledger row, or commits if and only if catalogue, wallet, stock and identifier admit it: a purchase then moves the wallet by minus seed price times quantity and the seeds by the quantity, a sale the wallet by the selling price times quantity and the crops by minus the quantity, with one ledger row and nothing else; any refusal is the one the rows call for and changes nothing |
| `FarmCommitter.MySQLCommitter.Trade` | server/internal/farm/infrastructure/committer_mysql.go:721-830 | the locked part of a purchase or sale is the specified one, with the error of the first failing check |
| `FarmCommitter.MySQLCommitter.SetWalletBalance` | server/internal/farm/infrastructure/committer_mysql.go:1021-1029 | the wallet gets the new balance, unless that is negative and its check constraint refuses it |
| `FarmCommitter.MySQLCommitter.InsertEconomyTransaction` | server/internal/farm/infrastructure/committer_mysql.go:1056-1087 | the ledger row is written unless its identifier does not fit the column or its key is taken |
| `FarmCommitter.MySQLCommitter.AdvanceRouteEpoch` | server/internal/farm/infrastructure/committer_mysql.go:99-135 | the fence moves to the requested epoch exactly when that is positive and not lower, and otherwise stays |
| `Cluster.FarmCommitHasEffect` | server/internal/farm/infrastructure/committer_mysql.go:150-270 | everything a committed farm command did, table by table, and that no check objected |
| `Cluster.StepIsQuiet` | server/internal/farm/infrastructure/committer_mysql.go:99-135 | a step that commits no farm command touches one shard, keeps every version and snapshot, lowers no fence, and adds no receipt |
| `FarmAdmission.CommitsExactly` | server/internal/farm/infrastructure/committer_mysql.go:150-270 | for every command kind, in terms of the stored rows: a farm command commits if and only if fence and base version are right, visitors are not the owner and befriended, a pet is on and its slot is due, plot and seed allow it, and its receipt and event keys are free |
| `FarmAdmission.StrangersAreToldExactly` | server/internal/farm/infrastructure/committer_mysql.go:205-216 | a visitor is answered as no friend if and only if fence and version are right, the farm is not their own, and neither the directed edge, where edges count, nor the row of the ordered pair is there |
| `FarmAdmission.RefusedExactly` | server/internal/farm/infrastructure/committer_mysql.go:176-391 | every refusal of a farm command, by its kind and in the order of the checks, told from the stored rows |
| `FarmAdmission.CommitWrites` | server/internal/farm/infrastructure/committer_mysql.go:228-391 | what a committed farm command leaves behind, table by table: its plot, version and schedule, one stock row moved by how much and whose, its receipt, and the announced event, with the numbers written out; everything else stays |
| `FarmAdmission.Catalogue` | server/internal/farm/infrastructure/crop_config.go:24-65 | the catalogue and the defaults for crops it does not know, number by number |
| `FarmAdmission.ReceiptAnswersExactly` | server/internal/farm/infrastructure/committer_mysql.go:433-454 | the lookup before the transaction answers exactly commands that keep receipts and have one |
| `FarmAdmission.AskingAgainAddsTheReply` | server/internal/farm/infrastructure/committer_mysql.go:433-454 | in the cluster asking again gives the reply of the receipt exactly when the command keeps receipts and has one, and changes nothing else |
| `FarmAdmission.EveryEntryWasAdmitted` | server/internal/farm/infrastructure/committer_mysql.go:150-270 | over every run: each logged command was committed by a step at which the stored rows admitted it |
| `FarmAdmission.OnlyFriendsVisit` | server/internal/farm/infrastructure/committer_mysql.go:205-216 | over every run: behind each logged watering or theft by a visitor is a moment at which a friendship row joined them, not the owner, with the owner |
| `FarmLog.FarmIsAReplayableLog` | server/internal/farm/infrastructure/committer_mysql.go:150-391 | over every interleaving of attempts, retries and receipt deletion: the snapshot is the fold of the committed commands through the snapshot column, the version is their number, an external command sits at the index its base version names and at most once, epochs never decrease or pass the fence |
| `FarmLog.ReplyNamesItsLogEntry` | server/internal/farm/infrastructure/committer_mysql.go:433-445 | every reply ever given for a receipt, fresh or replayed, names the version at which that command was logged |
| `FarmLog.NoStaleCommitAfterFence` | server/internal/farm/infrastructure/committer_mysql.go:182-184 | once a fence stands at an epoch, nothing that happens later commits a command with a smaller epoch, and the log is only extended |
| `FarmLog.AdvanceSetsFence` | server/internal/farm/infrastructure/committer_mysql.go:99-135 | an advance succeeds if and only if the farm exists and the epoch is positive and not lower; success sets exactly that fence, failure changes nothing |
| `CropConservation.CommitFarmConserves` | server/internal/farm/infrastructure/committer_mysql.go:150-391 | one committed farm command changes the count of each crop by exactly what it plants |
| `CropConservation.NewEventDue` | server/internal/farm/infrastructure/committer_mysql.go:968-990 | the event of a committed command is a due credit exactly when the committer deferred the theft, with its crop and amount |
| `CropTheorems.CropsAreConserved` | server/internal/farm/infrastructure/committer_mysql.go:941-1004 | after every run, for every item: yields on plots plus crops in inventories plus thefts not yet credited equals what was planted plus mailed minus sold |
| `CropTheorems.TheftIsCreditedOnce` | server/internal/farm/infrastructure/cross_shard_steal_projector.go:43-111 | whatever is relayed twice, redelivered or forgotten by the dedup table: a theft is credited at most once, and has been credited exactly when its ledger row exists |
| `CropTheorems.SameShardTheftIsNotCreditedAgain` | server/internal/farm/infrastructure/cross_shard_steal_projector.go:79-81 | delivering the event of a same-shard theft changes nothing |
| `CropTheorems.NoFarmEventVanishes` | server/internal/farm/infrastructure/outbox_relay.go:106-319 | every event any shard ever committed is in its outbox or was accepted by the broker, and the broker holds committed events only |
| `StealProjector.CrossShardStealProjector.Handle` | server/internal/farm/infrastructure/cross_shard_steal_projector.go:43-82 | refuses exactly the malformed thefts, credits exactly the cross-shard ones, on the shard of the thief and nowhere else |
| `StealProjector.CrossShardStealProjector.Credit` | server/internal/farm/infrastructure/cross_shard_steal_projector.go:84-111 | ledger row and stock move together, and not at all when the row exists |
| `StealProjector.HandleIsADelivery` | server/internal/farm/infrastructure/cross_shard_steal_projector.go:43-82 | handling one delivered event is one step of the cluster |
| `StealProjector.RedeliveryCreditsNothing` | server/internal/farm/infrastructure/cross_shard_steal_projector.go:98-103 | delivering the same event again changes nothing, in every state |
| `Outbox.BusStepKeepsInvariant` | server/internal/farm/infrastructure/outbox_relay.go:150-319 | each statement of any relay, with crashes and late marks, and of the reaper keeps every committed event stored or published |
| `Outbox.NoEventVanishes` | server/internal/farm/infrastructure/outbox_relay.go:106-319 | the same over every run, and a row marked published was accepted by the broker |
| `Outbox.LocksExactly` | server/internal/farm/infrastructure/outbox_relay.go:191-259 | stale locks go back to waiting, claimed rows come under the lock of their worker until its end, and nothing else of the table moves |
| `Outbox.MarksExactly` | server/internal/farm/infrastructure/outbox_relay.go:261-295 | the single mark publishes its row whoever holds it, the batch mark publishes the rows its worker still holds, and nothing else moves |
| `Outbox.ReapsExactly` | server/internal/farm/infrastructure/retention_reaper.go:166-208 | the reaper takes exactly the rows it was handed that were published before the cutoff |
| `OutboxRetries.RetriesAreBounded` | server/internal/farm/infrastructure/outbox_relay.go:297-319 | over every run of the bus in which failures are reported by relays that still hold the row: an event fails at most maxRetry + 1 times and is claimed at most that often and once more for each lock that ran out; its row counts its failures, is dead with the last one, and waits or is worked on only while a retry is left |
| `OutboxRetries.OneRelayGivesUp` | server/internal/farm/infrastructure/outbox_relay.go:106-187 | with one relay at work, whatever crashes, commits, late marks and reaping come between its steps, that holds for every event |
| `OutboxRetries.LateFailureRevives` | server/internal/farm/infrastructure/outbox_relay.go:297-319 | a failure reported late, by a relay whose lock ran out, brings a dead event back if and only if that relay had read a count below the limit |
| `OutboxRelayRuntime.OutboxRelay.ReclaimStale` | server/internal/farm/infrastructure/outbox_relay.go:191-200 | exactly the rows in work whose lock ended before now go back to pending, unlocked; every other row stays |
| `OutboxRelayRuntime.OutboxRelay.ClaimBatch` | server/internal/farm/infrastructure/outbox_relay.go:202-259 | claims a front of the queue in outbox order, pending, due and not locked, at most the batch size and everything eligible if there is room, puts it under its own lock until the ttl, and changes nothing else |
| `OutboxRelayRuntime.OutboxRelay.PublishClaimedBatch` | server/internal/farm/infrastructure/outbox_relay.go:150-187 | an answer of the wrong length changes nothing; otherwise failures go back, or die with their retries used up, and owned successes are marked, each as far as the database takes the mark; it reports an error exactly when the mark of the successes was not acknowledged or one of them was lost |
| `OutboxRelayRuntime.OutboxRelay.MarkFailures` | server/internal/farm/infrastructure/outbox_relay.go:160-173 | after the loop exactly the failed rows whose mark took effect have counted one failure more and are dead if their retries are used up, pending otherwise; the published ones are collected |
| `OutboxRelayRuntime.OutboxRelay.MarkRetryOrDead` | server/internal/farm/infrastructure/outbox_relay.go:297-319 | the row of a failed publish counts one more than was read, is unlocked, and is dead if the count read had reached the limit, and otherwise pending five seconds later for each failure |
| `OutboxRelayRuntime.OutboxRelay.MarkPublished` | server/internal/farm/infrastructure/outbox_relay.go:273-295 | marks the rows this worker still holds, if the statement takes effect, and fails when it is not acknowledged or misses a row |
| `OutboxRelayRuntime.BatchOutcome` | server/internal/farm/infrastructure/outbox_relay.go:150-187 | whatever publisher and database answered, every row of a batch keeps its payload and ends dead, pending with a larger count and five seconds more for each failure, published, or exactly as it was; a requeued row is dead if and only if its retries are used up, and any row is dead afterwards if and only if it was before or that happened |
| `OutboxRelayRuntime.ReapedTable.DeleteExpired` | server/internal/farm/infrastructure/retention_reaper.go:168-208 | one statement removes rows stamped before the cutoff only, those with the smallest keys, at most the limit, and below the limit leaves none |
| `OutboxRelayRuntime.ReapedTable.ReapTable` | server/internal/farm/infrastructure/retention_reaper.go:166-208 | while others insert, update and delete rows between the batches: the loop ends, each statement removes only rows expired then and those with the smallest keys, the total is what it reports and stays within the cap, and when it was not stopped and stayed below the cap its last statement left no expired row |
| `OutboxRelayRuntime.NoRowIsReapedTwice` | server/internal/farm/infrastructure/retention_reaper.go:166-208 | over all batches as many different rows are gone as were counted, and none of them is in the table again |
| `RelayOnTheBus.ClaimIsABusStep` | server/internal/farm/infrastructure/outbox_relay.go:202-259 | the claim of the relay is a claim on the bus, and the memory of the worker afterwards holds the batch as read |
| `RelayOnTheBus.BatchIsABusRun` | server/internal/farm/infrastructure/outbox_relay.go:150-187 | the table a batch leaves is the one its publishes, failures and marks leave one by one, marks that fail included, and the broker holds every accepted row with the payload of the claim |
| `RelayOnTheBus.RelayTurnLosesNothing` | server/internal/farm/infrastructure/outbox_relay.go:106-187 | a claim, its publishes and its marks, with anything in between, new commits among it, and whatever is answered: every event ever committed stays stored or published, and a row still owned at the mark is PUBLISHED exactly when it was reported and the mark took effect |
| `EventConsumer.RetryDelay` | server/internal/farm/infrastructure/event_consumer.go:383-395 | the doubling loop computes the capped exponential delay and no intermediate value exceeds the cap |
| `EventConsumer.KafkaConsumer.ProcessOnce` | server/internal/farm/infrastructure/event_consumer.go:83-124 | a known event is skipped: the projector is not called, and the call succeeds or its lookup failed; an unknown one is handled at most once, success means its row is in the table, and the table gains that row at most; it fails for want of a store exactly when the resolver names none, and as malformed exactly when a store is found and the envelope is malformed |
| `EventConsumer.KafkaConsumer.RecordFailure` | server/internal/farm/infrastructure/event_consumer.go:359-381 | the failure is stored, which is one parking move, or the context ended |
| `EventConsumer.KafkaConsumer.ProcessCurrent` | server/internal/farm/infrastructure/event_consumer.go:253-330 | a message is handled, with its row in the table, or parked after exactly the allowed tries, at once only if it is malformed and its dedup store was found, or the context ended; if its row was there, the projector is never called |
| `EventConsumer.KafkaConsumer.Turn` | server/internal/farm/infrastructure/event_consumer.go:234-357 | a turn is a run of handling, parking and passing moves: the reader passes a message only once it is handled or parked, and a new offset is the place of the reader |
| `EventConsumer.KafkaConsumer.Run` | server/internal/farm/infrastructure/event_consumer.go:214-357 | any turns, crashes, deliveries and reaped dedup rows are a run of the partition with one restart for each crash; everything before the committed offset is handled or parked as long as no restart was unsafe; an event known to one store is handled at most once, and once more for each mark that was lost and each time its row was reaped, and not at all while its row is there |
| `EventConsumer.SafeRunsKeepThePromise` | server/internal/farm/infrastructure/event_consumer.go:234-357 | while no restart is unsafe, everything the reader is past, and so everything before the offset, is handled or parked |
| `EventConsumer.RestartKeepsThePromiseExactly` | server/internal/farm/infrastructure/event_consumer.go:214-232 | the offset passes handled or parked messages only, on every continuation after a restart, if and only if before it an offset was committed or nothing in the partition was unsettled |
| `EventConsumer.FirstStartKeepsThePromiseExactly` | server/internal/farm/infrastructure/event_consumer.go:214-232 | a new group keeps that promise if and only if its partition is empty when it starts |
| `EventConsumer.CrashBeforeTheFirstCommit` | server/internal/farm/infrastructure/event_consumer.go:214-232 | a run in which a crash before the first commit makes the offset pass two messages that were neither handled nor parked |
| `ConsumerDedup.HandlesAreCountedExactly` | server/internal/farm/infrastructure/event_consumer.go:83-124 | over any history of projector calls for unknown events and removed rows: an event is handled exactly once for each lost mark, once for each removal that found its row, and once if its row came to be |
| `ConsumerDedup.KnownIsNotCalled` | server/internal/farm/infrastructure/event_consumer.go:83-124 | an event whose row is there and is not removed is never passed to the projector again, and its row stays |
| `TheftDelivery.PassedTheftsAreCreditedOnceOrParked` | server/internal/farm/infrastructure/cross_shard_steal_projector.go:43-111 | over all runs of shards, relays, broker and consumer without an unsafe restart: a message before the committed offset is parked, or it is well formed, and if it is a theft across shards exactly one delivery has credited it |
| `TheftDelivery.OnePayloadEach` | server/internal/farm/infrastructure/committer_mysql.go:541-572 | the broker never holds two payloads under one event identifier |
| `EconomyOnce.RetryValue` | server/pkg/mysqlretry/retry.go:31-48 | at most three whole attempts: the first success, the first failure not worth retrying, the third failure, or cancellation while waiting |
| `EconomyOnce.CatalogueDeltas` | server/internal/farm/infrastructure/crop_config.go:24-56 | every catalogue price times every legal quantity is far inside int64 |
| `EconomyOnce.BooksAlwaysBalance` | server/internal/farm/infrastructure/committer_mysql.go:667-830 | after every run no wallet and no stock is negative, and each wallet is the initial coins, less a pet, plus the deltas of its ledger rows, plus the coins of mails and task rewards, which write no ledger row |
| `EconomyOnce.RepliesAgree` | server/internal/farm/infrastructure/committer_mysql.go:667-720 | every reply ever given under one key carries the same balance |
| `EconomyOnce.EachKeyTakesEffectOnce` | server/internal/farm/infrastructure/committer_mysql.go:667-830 | of all attempts under one key exactly one took effect if the ledger row exists, and none otherwise |
| `EconomyOnce.LosersReplayTheWinner` | server/internal/farm/infrastructure/committer_mysql.go:140-148 | an attempt that loses to a duplicate key changes nothing, and asking again replays the balance of the winner if and only if the identifier fills the sixteen bytes of its column |
| `EconomyOnce.CompactIdsHaveTheirOwnKeys` | server/internal/farm/infrastructure/committer_mysql.go:1053-1072 | different identifiers of thirty-two lower-case hexadecimal digits, the form in which they are drawn, have different keys |
| `EconomyAdmission.UnhexKeepsTheNumber` | server/internal/farm/infrastructure/committer_mysql.go:1056-1072 | unhexing fails exactly on characters that are no digits, and otherwise yields one byte for two digits that together are the number the digits write |
| `EconomyAdmission.StorableExactly` | server/internal/farm/infrastructure/committer_mysql.go:1056-1072 | the identifier column takes exactly what has at most thirty-two digits, padded with zero bytes, and only identifiers that fill it are found again |
| `EconomyAdmission.TradesCommitExactly` | server/internal/farm/infrastructure/committer_mysql.go:667-830 | a purchase or sale commits if and only if the crop is in the catalogue, the wallet is there and pays or the stock suffices, the new balance fits its column, and identifier and key are free; every refusal is told exactly; a commit moves wallet, stock row and ledger by price times quantity and quantity, and nothing else |
| `EconomyAdmission.LedgerAnswersExactly` | server/internal/farm/infrastructure/committer_mysql.go:925-941 | the lookup before the transaction replays the balance of the ledger row exactly for identifiers that fill the column and have one |
| `Accounts.AskingAgainAddsTheBalance` | server/internal/farm/infrastructure/committer_mysql.go:925-941 | in the cluster asking again gives the balance of the ledger row exactly when the quantity is legal, the identifier fills its column and the row is there, and changes nothing else |
| `Accounts.TradesTakeEffectExactly` | server/internal/farm/infrastructure/committer_mysql.go:667-830 | in the cluster a trade takes effect if and only if its quantity is between one and ten thousand and the stored rows admit it |
| `Accounts.WorkTakesEffectExactly` | server/internal/farm/infrastructure/committer_mysql.go:150-270 | in the cluster a farm command takes effect if and only if the stored rows admit it, its keys and its event are new, and its clock is sound |
| `Accounts.DeliveryTakesEffectExactly` | server/internal/farm/infrastructure/cross_shard_steal_projector.go:43-111 | a delivered event takes effect if and only if the broker holds it, it is a well-formed theft across shards, and the thief has no ledger row for it |
| `Accounts.MailTakesEffectExactly` | server/internal/mail/infrastructure/mysql_mail_service.go:250-268 | a mailed item takes effect if and only if its user has a wallet and it carries something |
| `Accounts.CoinsArriveExactly` | server/internal/mail/infrastructure/mysql_mail_service.go:250-259 | coins past the ledger arrive, and move that wallet alone by their amount, if and only if there is a wallet and its column holds the sum |
| `Accounts.OpeningTakesEffectExactly` | server/internal/account/infrastructure/mysql_account_service.go:506-531 | an account opens if and only if nothing of its user exists yet, and then with twelve empty plots, a thousand coins and five seeds |
| `Accounts.WalletsAreAccountedFor` | server/internal/farm/infrastructure/committer_mysql.go:667-830 | over every run a wallet is a thousand coins, less two hundred for a pet, less seed price times quantity for every purchase, plus selling price times quantity for every sale, plus what mails and tasks gave |
| `Accounts.StocksAreAccountedFor` | server/internal/farm/infrastructure/committer_mysql.go:941-1004 | over every run each stock row of each user on each shard is what the account opened with, plus what its user bought, was mailed, harvested, stole on this shard and was delivered from others, less what they planted and sold |
| `Accounts.SeedsAreAccountedFor` | server/internal/farm/infrastructure/committer_mysql.go:941-967 | over every run seeds are the initial ones plus the bought and the mailed ones, less one for each crop of the catalogue planted |
| `PetSlots.RoundingIsTight` | server/internal/pet/infrastructure/mysql_pet_service.go:208-217 | the millisecond column moves a slot by at most half a millisecond, and makes it early exactly for times it rounds down, by less than that |
| `PetSlots.EachSlotPaysOnce` | server/internal/farm/infrastructure/committer_mysql.go:185-198 | over any scanners, leases, retries, reschedules and toggles the slots spent by a farm strictly increase and no harvest precedes its slot |
| `PetSlots.PetHarvestsAreHalfAMinuteApart` | server/internal/farm/infrastructure/committer_mysql.go:968-990 | two pet harvests of a farm are more than thirty seconds less half a millisecond apart, and a full thirty seconds unless the column rounded the first one down |
| `PetSlots.ProposalCommitsExactly` | server/internal/farm/infrastructure/committer_mysql.go:185-235 | a proposal for the slot a harvest left commits exactly from that slot on, and only for the smallest mature plot |
| `PetSlots.EarlyHarvestIsPossibleExactly` | server/internal/farm/infrastructure/committer_mysql.go:185-198 | after a pet harvest some proposal commits less than thirty seconds later if and only if the column rounded its time down and a plot is mature within the thirty seconds |
| `PetEarlyHarvest.PetHarvestsCanBeTooClose` | server/internal/farm/infrastructure/committer_mysql.go:185-198 | a reachable log in which two pet harvests lie four hundred microseconds short of thirty seconds apart |
| `PetService.MySQLPetService.BuyPetOnce` | server/internal/pet/infrastructure/mysql_pet_service.go:38-114 | wallet, pet and schedule change together or not at all, with the error of the first failing check |
| `PetService.MySQLPetService.SetAutoHarvestOnce` | server/internal/pet/infrastructure/mysql_pet_service.go:145-206 | the switch and the schedule change together; repeating "on" changes nothing; a schedule update that affects no row, as when "off" is repeated, is answered with an error |
| `PetService.PetScanner.FirstDue` | server/internal/worker/pet_scanner.go:183-193 | the first due farm in schedule order that nobody holds locked |
| `PetService.PetScanner.ClaimDue` | server/internal/worker/pet_scanner.go:176-230 | claims due farms in schedule order, farms of one slot by identifier, up to the batch size: the pet is on, the slot has come, no lease runs past now; each gets a lease of its own token, nothing else moves, and a due farm is passed over only when the batch is full |
| `PetService.PetScanner.RenewLease` | server/internal/worker/pet_scanner.go:285-298 | renews, by the ttl from now, if and only if the lease in the row is this token's and ends after now |
| `PetService.PetScanner.PushNextPetAction` | server/internal/worker/pet_scanner.go:300-317 | moves the slot if and only if it is the claimed one and the lease in the row is this token's and ends after now |
| `PetService.PetScanner.FindSmallestMaturePlot` | server/internal/worker/pet_scanner.go:343-365 | the smallest plot stored as growing whose time has come, or none |
| `PetService.PetScanner.ProcessClaimedFarm` | server/internal/worker/pet_scanner.go:232-279 | without the lease nothing happens; without a mature plot the slot moves; otherwise the smallest one is proposed for the claimed slot |
| `PetService.ScannerAndCommitterAgree` | server/internal/worker/pet_scanner.go:343-365 | scanner and committer see the same mature plots at every time if and only if no plot is stored as mature |
| `PetService.StoredMatureIsMissed` | server/internal/worker/pet_scanner.go:343-365 | a plot stored as mature is harvestable for the committer and invisible to the scanner |
| `PetSlots.ScannerAndCommitterPickTheSamePlot` | server/internal/worker/pet_scanner.go:343-365 | in every reachable state and at every time, the plot the scanner proposes from the stored snapshot is the one the committer insists on, and one finds none exactly when the other does not |
| `PetAdmission.PetsAreBoughtExactly` | server/internal/pet/infrastructure/mysql_pet_service.go:38-114 | each refusal of a pet purchase exactly; a purchase costs two hundred coins, switches the pet on, opens the slot half a minute and the jitter ahead, and changes nothing else |
| `PetAdmission.SwitchesExactly` | server/internal/pet/infrastructure/mysql_pet_service.go:145-206 | when the switch is refused and how, and that on opens the slot, off closes it, and on when on changes nothing |
| `PetAdmission.ServiceStepsExactly` | server/internal/pet/infrastructure/mysql_pet_service.go:38-206 | in the cluster a purchase takes effect with at most three seconds of jitter and a sound clock, the switch with as much jitter, and each does what its transaction says |
| `PetAdmission.ClaimableExactly` | server/internal/worker/pet_scanner.go:176-193 | a farm may be claimed if and only if its owner has a pet that is on, its slot has come, and no lease runs past now |
| `PetAdmission.RenewsExactly` | server/internal/worker/pet_scanner.go:285-298 | a renewal prolongs the lease if and only if this claim still holds an unexpired one |
| `PetAdmission.PushesExactly` | server/internal/worker/pet_scanner.go:300-317 | the slot moves on by half a minute if and only if this claim holds an unexpired lease and the slot is the claimed one |
| `PetAdmission.ClaimsExactly` | server/internal/worker/pet_scanner.go:176-230 | in the cluster a claim takes effect if and only if the farm is claimable and its token and clock are sound, and until its lease has run out no other claim of the farm does |
| `PetAdmission.JobsActExactly` | server/internal/worker/pet_scanner.go:232-317 | later statements act for the farm and the slot of the claim they belong to, and no earlier than it |
| `ActorTheorems.RunningMeansOneWorkItem` | server/internal/farm/actor/runtime.go:278-372 | while the runtime lives an actor runs exactly when one work item of its farm is ready, executing or completed; there are never two |
| `ActorTheorems.FarmsExecuteSequentially` | server/internal/farm/actor/runtime.go:278-401 | executions of one farm never overlap, each starts from the snapshot the previous one left or cold; in a live runtime they follow acceptance order and none repeats |
| `ActorTheorems.CountersAndCapsAreExact` | server/internal/farm/actor/runtime.go:438-469 | both counters equal what they count, and every bound of the configuration holds |
| `ActorTheorems.CompletionFindsItsActor` | server/internal/farm/actor/runtime.go:325-330 | the state-mismatch branch of complete is unreachable |
| `ActorTheorems.EveryTakenTaskIsAnswered` | server/internal/farm/actor/runtime.go:403-437 | every task taken from an inbox is answered or still owed, and answered once its scheduler has exited; in a live runtime the answer is its own result, or backpressure and then it was never executed |
| `ActorTheorems.OneSchedulerNeverWedges` | server/internal/farm/actor/runtime.go:325-372 | with one scheduler, whenever the hand-off waits on a full ready channel some worker can step |
| `ActorTheorems.StepKeepsRoom` | server/internal/farm/actor/runtime.go:182 | the bound behind it: a held task and a full ready channel leave room for one completion |
| `ActorTheorems.WedgeIsForever` | server/internal/farm/actor/runtime.go:325-372 | no step but cancellation leaves such a state |
| `ActorIdle.IdleActorsLeaveExactly` | server/internal/farm/actor/runtime.go:424-431 | an eviction takes exactly the resting actors last used at least the ttl before it, counts them off, and leaves everything else as it was |
| `ActorIdle.FarmsAreEvictedExactly` | server/internal/farm/actor/runtime.go:278-431 | over every run a farm loses its actor if and only if its own scheduler evicts while the actor rests and the last step that used it read a clock at least the ttl ago, or a dispatch finds no room for an actor just made |
| `ActorIdle.WarmFarmsStayHot` | server/internal/farm/actor/runtime.go:302-431 | from an execution of a farm on, while no eviction comes the ttl or more after its last use, the farm keeps its actor and every later execution starts from the snapshot the one before it left |
| `ActorAnswers.AnswersExactly` | server/internal/farm/actor/runtime.go:278-437 | which step answers which task and how: backpressure for want of an actor, of a place in the farm's queue or of room in the ready channel, the result on completion, cancellation during shutdown only; no answer ever changes |
| `ActorAnswers.ChannelsAreFifo` | server/internal/farm/actor/runtime.go:225-372 | inboxes, ready channel and completion channels are first in, first out, and move exactly when the step at either end finds room or an item |
| `ActorWedge.StuckIsForever` | server/internal/farm/actor/runtime.go:325-372 | once the ready channel is full and every worker waits at the full completion channel of a scheduler that waits for the ready channel, only cancellation frees the workers |
| `ActorWedge.StuckNeedsActors` | server/internal/farm/actor/runtime.go:325-372 | such a state needs two schedulers and a limit on actors of at least twice the workers plus the ready channel plus one |
| `ActorWedgeRun.RunIntoTheWedge` | server/internal/farm/actor/runtime.go:325-372 | with that much room there is a run into such a state, for any number of workers and any size of the ready channel |
| `ActorWedgeRun.StuckIsReachableExactly` | server/internal/farm/actor/runtime.go:144-184 | provided the hash sends farms to every shard: a stuck state is reachable if and only if there are two schedulers and the limit on actors is at least twice the workers plus the ready channel plus one |
| `ActorWedgeRun.TwoSchedulersCanWedge` | server/internal/farm/actor/runtime.go:325-372 | one worker, a ready channel of one place and four actors are enough |
| `ActorRuntime.Runtime.constructor` | server/internal/farm/actor/runtime.go:144-184 | a new runtime has empty channels and idle schedulers and workers |
| `ActorRuntime.Runtime.Submit` | server/internal/farm/actor/runtime.go:225-241 | a new task enters its shard's inbox exactly when there is room |
| `ActorRuntime.Runtime.Accept` | server/internal/farm/actor/runtime.go:278-302 | refuses the task, queues it behind the running one, or prepares its dispatch with an existing or new actor |
| `ActorRuntime.Runtime.TryDispatch` | server/internal/farm/actor/runtime.go:302-323 | the non-blocking send, and the undoing of a new actor when it fails |
| `ActorRuntime.Runtime.Complete` | server/internal/farm/actor/runtime.go:325-341 | ends the run, keeps the snapshot, answers, and takes the next queued task in hand |
| `ActorRuntime.Runtime.HandOff` | server/internal/farm/actor/runtime.go:342-347 | puts the task in hand into the ready channel and marks the actor running |
| `ActorRuntime.Runtime.DropHandOff` | server/internal/farm/actor/runtime.go:348-350 | answers the task in hand with cancellation |
| `ActorRuntime.Runtime.EvictIdle` | server/internal/farm/actor/runtime.go:424-431 | a farm of the shard loses its actor if and only if it does not run, has an empty queue and was last used at least the ttl ago; all others keep actor and snapshot, and the lost ones are counted off |
| `ActorRuntime.Runtime.FailAll` | server/internal/farm/actor/runtime.go:403-423 | answers everything the actors owe and the inbox holds, and gives both counters back |
| `ActorRuntime.Runtime.Take` | server/internal/farm/actor/runtime.go:353-361 | a free worker takes the oldest ready item |
| `ActorRuntime.Runtime.Finish` | server/internal/farm/actor/runtime.go:374-401 | an execution ends with any snapshot and any result |
| `ActorRuntime.Runtime.Report` | server/internal/farm/actor/runtime.go:365-367 | the completion enters its shard's channel |
| `ActorRuntime.Runtime.Abandon` | server/internal/farm/actor/runtime.go:368-370 | at shutdown the worker answers instead of reporting |
| `ActorRuntime.Runtime.Answer` | server/internal/farm/actor/runtime.go:432-437 | only the first answer to a task is kept |
| `ActorRuntime.Runtime.Perform` | server/internal/farm/actor/runtime.go:252-276 | any step of any schedule does what the transition system says |
| `FriendSaga.FriendEdgeSaga.Begin` | server/internal/social/infrastructure/friend_edge_saga.go:31-87 | succeeds if and only if the request is valid and, after the insert, a PENDING or ACTIVE row of the pair is there; a first request writes a PENDING edge and its event together, a retry reuses the stored event, ACTIVE and FAILED change nothing |
| `FriendSaga.FriendEdgeSaga.ApplyRemote` | server/internal/social/infrastructure/friend_edge_saga.go:98-147 | inserts an ACTIVE edge or turns a PENDING one ACTIVE and writes one acknowledgement exactly then |
| `FriendSaga.FriendEdgeSaga.ConfirmSource` | server/internal/social/infrastructure/friend_edge_saga.go:156-207 | turns exactly the matching PENDING edge ACTIVE and publishes the acceptance with it; an ACTIVE one is a success, anything else an error |
| `FriendSaga.FriendEdgeSaga.FindHolder` | server/internal/social/infrastructure/friend_edge_saga.go:49-56 | finds the row that holds an event identifier, if there is one |
| `FriendSaga.FriendEdgeSaga.CompensateDeadRequests` | server/internal/social/infrastructure/friend_edge_compensator.go:25-58 | fails only PENDING edges whose event is dead, those updated longest ago first, at most the limit, and all of them when there are fewer; every other edge stays |
| `FriendSaga.BeginAnswersExactly` | server/internal/social/infrastructure/friend_edge_saga.go:31-87 | each answer to a request in terms of the stored rows, and the edge and the one outbox row it leaves |
| `FriendSaga.ApplyAnswersExactly` | server/internal/social/infrastructure/friend_edge_saga.go:98-147 | a request applied on the target's shard inserts an ACTIVE row or turns the PENDING row it lands on ACTIVE, leaves all others alone, and is acknowledged if and only if it changed a row |
| `FriendSaga.ConfirmAnswersExactly` | server/internal/social/infrastructure/friend_edge_saga.go:156-207 | a confirmation succeeds if and only if the row of the pair holds its event and is PENDING, then ACTIVE with one acceptance, or ACTIVE already; each other answer exactly |
| `FriendCluster.ConfirmedFriendshipIsMutualForever` | server/internal/social/infrastructure/friend_edge_saga.go:156-207 | an edge activated by confirmation and its reverse are ACTIVE from then on, under duplication, reordering, crossing and compensation |
| `FriendCluster.PendingWithActiveReverseCanFinish` | server/internal/social/infrastructure/friend_edge_saga.go:98-147 | a PENDING edge whose reverse is ACTIVE has its acknowledgement written, and once the broker has that, one delivery makes the friendship mutual |
| `FriendCluster.ActivationsAreAnnouncedOnce` | server/internal/social/infrastructure/friend_edge_saga.go:98-207 | acknowledgements plus acceptances of a pair equal its ACTIVE edges: at most one acknowledgement per direction, at most one acceptance per pair, and none exactly when both directions were acknowledged |
| `FriendCluster.ActiveEdgeHasAReverse` | server/internal/social/infrastructure/friend_edge_saga.go:98-147 | an ACTIVE edge always has a reverse row |
| `FriendCompensation.CrossingRequestsPublishNothing` | server/internal/social/infrastructure/friend_edge_saga.go:98-207 | a reachable state in which both edges are ACTIVE and no acceptance was published |
| `FriendCompensation.FailedFacesActiveExactly` | server/internal/social/infrastructure/friend_edge_compensator.go:25-58 | a compensated edge faces an ACTIVE reverse if and only if its own request was acknowledged, which only a request the broker took can be; the reverse is never announced as accepted |
| `FriendCompensation.CompensationIsOneSidedExactly` | server/internal/social/infrastructure/friend_edge_compensator.go:25-58 | a compensated edge can come to face an ACTIVE reverse, now or in any later run, if and only if it does so already, or its request can still leave the shard and the reverse was not compensated itself |
| `FriendCompensation.CompensationIsSafeExactly` | server/internal/social/infrastructure/friend_edge_compensator.go:25-58 | just after compensation of a dead request: it can come to that if and only if the reverse was ACTIVE, or the reverse was not compensated and a relay holds the request or the broker took it |
| `FriendCompensation.CompensationCanBeOneSided` | server/internal/social/infrastructure/friend_edge_compensator.go:25-58 | a reachable state in which the source is FAILED and the target ACTIVE: the broker took the request and reported an error |
| `RouteStore.CommitIsAnAtomicClaim` | server/internal/farm/routing/etcd.go:176-221 | a successful compare-and-swap, however old its reads, has the effect of a claim made on the present store |
| `RouteStore.StepKeepsSound` | server/internal/farm/routing/etcd.go:176-237 | every read, swap, registration and lease expiry keeps routes, epochs and wins consistent, and loses no epoch |
| `RouteStore.EachEpochIsWonOnce` | server/internal/farm/routing/etcd.go:176-221 | no bucket and epoch is won twice; later wins have larger epochs |
| `RouteStore.PresentRouteCarriesThePersistentEpoch` | server/internal/farm/routing/etcd.go:203-215 | a present route carries the persistent epoch of its bucket and belongs to the instance that won it |
| `RouteStore.OneOwnerPerEpoch` | server/internal/farm/routing/client.go:36-47 | however stale a cached route is, two routes of a bucket with the same epoch name the same owner |
| `RouteStore.EpochsNeverFall` | server/internal/farm/routing/etcd.go:50-52 | the persistent epoch never falls and never disappears |
| `RouteLeases.ClaimsWriteExactly` | server/internal/farm/routing/etcd.go:176-221 | a claim that finds both keys as it read them writes the next epoch and a route under its own lease, ACTIVE only on a free bucket; any other claim writes nothing |
| `RouteLeases.ActivationsWriteExactly` | server/internal/farm/routing/etcd.go:223-237 | an activation of one's own route that is as it was read turns it ACTIVE under one's lease; any other writes nothing |
| `RouteLeases.ExpiryTakesExactly` | server/internal/farm/routing/etcd.go:74-108 | a lease that runs out takes exactly the routes and instances under it, and no epoch |
| `RouteLeases.RouteHangsOnItsOwnersLease` | server/internal/farm/routing/etcd.go:203-237 | over every run each present route was written by a step of its owner under the lease the owner came with |
| `RouteLeases.DeadInstancesOwnNothing` | server/internal/farm/routing/etcd.go:74-108 | when the lease of an instance that works under one lease runs out, no route names it as owner any more |
| `RouteControl.DesiredOwner` | server/internal/farm/routing/etcd.go:159-174 | the running best over the sorted instances is the one that beats all others |
| `RouteControl.JoiningMovesOnlyItsWins` | server/internal/farm/routing/etcd.go:159-174 | a new instance moves exactly the buckets it wins |
| `RouteControl.LeavingMovesOnlyItsBuckets` | server/internal/farm/routing/etcd.go:159-174 | a departing instance moves exactly the buckets it owned |
| `RouteControl.RoundShortensTheDistance` | server/internal/farm/routing/etcd.go:142-154 | a round by the desired owner brings its bucket exactly one step nearer, and moves nothing once it is there |
| `RouteControl.VisitsConverge` | server/internal/farm/routing/etcd.go:117-157 | with a fixed live set and any interleaving of the loops, only visits by the desired owner move a bucket, one step each |
| `RouteControl.TwoRoundsConverge` | server/internal/farm/routing/etcd.go:117-157 | two rounds by every controller leave each bucket ACTIVE under its rendezvous owner |
| `RouteControl.ConvergedStoresRest` | server/internal/farm/routing/etcd.go:117-157 | later rounds change nothing |
| `RouteControl.RoundReconciles` | server/internal/farm/routing/etcd.go:141-155 | a round of the desired owner makes a free bucket its own and ACTIVE, its own route ACTIVE, and a foreign one its own and MIGRATING with the next epoch |
| `RouteControl.Controller.Claim` | server/internal/farm/routing/etcd.go:176-221 | with others at work on their own buckets between its calls, a claim by the desired owner takes the next epoch, ACTIVE on a free bucket and MIGRATING over a foreign one, under its own lease |
| `RouteControl.Controller.Activate` | server/internal/farm/routing/etcd.go:223-237 | an unchanged claim turns ACTIVE under its own lease and nothing else about it changes |
| `RouteControl.Controller.ReconcileOnce` | server/internal/farm/routing/etcd.go:117-157 | one round takes every bucket this controller should own one claim or activation further |
| `RouteControl.Controller.VisitBucket` | server/internal/farm/routing/etcd.go:141-155 | the loop body moves its own bucket as specified and leaves the other buckets of this controller alone |
| `RouteControl.Controller.LiveInstances` | server/internal/farm/routing/etcd.go:118-129 | all registered instances, ascending |
| `RouteControl.Resolver.Sync` | server/internal/farm/routing/etcd.go:289-306 | after a full read the cache is the route table at that revision |
| `RouteControl.Resolver.ApplyResponse` | server/internal/farm/routing/etcd.go:308-351 | after a watch response the cache is the route table at the revision of the response |
| `RouteControl.Resolver.Resolve` | server/internal/farm/routing/etcd.go:268-277 | an answer is the ACTIVE route it shows, which was stored; without one there is an error |
| `RouteWatch.LogShowsTheStore` | server/internal/farm/routing/etcd.go:289-351 | the watch events of any run are in revision order, name stored routes only, and leave exactly the routes the store has |
| `RouteWatch.ResolversAgreePerEpoch` | server/internal/farm/routing/client.go:36-47 | two resolvers that show whatever revisions of one run never name different owners for a bucket at one epoch |
| `RouteWatch.ShownEpochsAreNotAhead` | server/internal/farm/routing/etcd.go:203-215 | the epoch a resolver shows never exceeds the persistent one, and equals it once the resolver is up to date |
| `ReadCache.EntriesAreFresh` | server/internal/gateway/http/read_cache.go:19-29 | over any interleaving of loads, fills, writes, expiries and invalidations: every cached entry stays at least as new as the last completed invalidation of its key if and only if every shared read was new enough for the generation of the reader that joined it |
| `ReadCache.JoinKeepsSoundExactly` | server/internal/gateway/http/read_singleflight.go:37-48 | a join keeps the invariant if and only if the joiner's generation has passed or the shared read is new enough for it |
| `ReadCache.EnforceableSharingIsFresh` | server/internal/gateway/http/read_singleflight.go:37-48 | without shared reads, or with reads shared within one generation only, every entry is fresh over every run |
| `ReadCache.HarmfulJoinsCacheStaleValues` | server/internal/gateway/http/read_singleflight.go:37-48 | after any other join, the joiner's next fill caches a stale value |
| `ReadCache.SharedReadsCacheStaleValues` | server/internal/gateway/http/read_singleflight.go:37-48 | a reachable one: a reader that joins an older read caches a value from before the invalidation |
| `ReadCache.EffectsExactly` | server/internal/gateway/http/read_cache.go:127-184 | a fill stores its entry if and only if the generation it was read under still stands; an invalidation opens a new generation and removes the entry; nothing else moves |
| `ReadCache.CachedSnapshotClient.Load` | server/internal/gateway/http/read_cache.go:86-125 | a value comes back only when it was cached, a generation only when it will be needed and then the present one, with Redis failing at the entry, at the generation or at the removal of a corrupt entry |
| `ReadCache.CachedSnapshotClient.FillKey` | server/internal/gateway/http/read_cache.go:127-154 | fills exactly when the generation still stands |
| `ReadCache.CachedSnapshotClient.InvalidateKey` | server/internal/gateway/http/read_cache.go:173-184 | removes the entry under a new generation |
| `ReadCache.CachedSnapshotClient.GetSnapshot` | server/internal/gateway/http/read_cache.go:209-225 | with anyone else running between its calls, a read returns the cached value while it is fresh, else the present one, else, when the database fails in a way that may be papered over, the expired one it has seen; never a state older than the last invalidation completed before it began |
| `Coalescer.CommandCarriesFirstQuantities` | server/internal/gateway/http/economy_coalescer.go:85-170 | each command sent carries the sum of the first quantities of the distinct keys in its bucket, within the limit |
| `Coalescer.EveryWaiterHearsItsBucket` | server/internal/gateway/http/economy_coalescer.go:85-170 | every waiter is in exactly one bucket, hears when and only when that bucket is answered, about the command it sent, and never the zero-quantity error |
| `Coalescer.SnapshotIsFinal` | server/internal/gateway/http/economy_coalescer.go:137-146 | nothing joins a bucket after its flush snapshot, and no flush finds a bucket empty |
| `Coalescer.WaitersHearTheResult` | server/internal/gateway/http/economy_coalescer.go:148-170 | over every run a waiter hears the quantity its bucket sent with the result of the one step that answered that bucket |
| `Coalescer.JoinsExactly` | server/internal/gateway/http/economy_coalescer.go:85-116 | a submission joins the open bucket of its own user, kind and crop, and adds its quantity the first time its key comes |
| `Coalescer.OpensExactly` | server/internal/gateway/http/economy_coalescer.go:85-133 | without an open bucket it opens one with itself as the first waiter |
| `Coalescer.OverflowsExactly` | server/internal/gateway/http/economy_coalescer.go:95-116 | a sum that would pass ten thousand makes the open bucket due at once and opens another |
| `Coalescer.OtherStepsExactly` | server/internal/gateway/http/economy_coalescer.go:126-170 | a timer makes its bucket due, a flush of a due bucket closes it and sends its total, an answer reaches exactly its waiters, each at most once |
| `Coalescer.EconomyCoalescer.Submit` | server/internal/gateway/http/economy_coalescer.go:85-116 | joins the open bucket, counts only a first key, and on overflow fires it and opens another |
| `Coalescer.EconomyCoalescer.NewBucket` | server/internal/gateway/http/economy_coalescer.go:126-133 | a new empty bucket becomes the open one |
| `Coalescer.EconomyCoalescer.TimerFires` | server/internal/gateway/http/economy_coalescer.go:57-62 | marks the bucket as fired |
| `Coalescer.EconomyCoalescer.Flush` | server/internal/gateway/http/economy_coalescer.go:137-146 | closes the bucket and takes waiters and total as they are |
| `Coalescer.EconomyCoalescer.Answer` | server/internal/gateway/http/economy_coalescer.go:148-170 | every waiter of the snapshot receives the one outcome: the total that was sent with this result |
| `Limiter.EvictionIsInvisibleWhenIdleMeansFull` | server/pkg/admission/http.go:169-206 | eviction is invisible at all later times if and only if rate times ttl covers the burst |
| `Limiter.CleanupRefinesPlainBucket` | server/pkg/admission/http.go:169-206 | with clock readings up to a skew out of order, and a ttl that less twice the skew lets the burst flow in, the limiter gives every call the answer of a plain bucket that is never evicted |
| `Limiter.CleanupsNeverShowExactly` | server/pkg/admission/http.go:169-206 | with a whole number as burst: over all runs with readings up to a skew out of order the limiter answers as a bucket that is never evicted if and only if the ttl less twice the skew lets the burst flow in |
| `Limiter.LateReadingSeesAnEviction` | server/pkg/admission/http.go:169-206 | one such run: a reading from before an eviction gets a different answer although rate times ttl covers the burst |
| `Limiter.AllowedIsCovered` | server/pkg/admission/http.go:181-192 | tokens are conserved in whatever order calls take effect: allowed calls plus what is left is covered by what there was plus what flowed in |
| `Limiter.RateIsBounded` | server/pkg/admission/http.go:169-206 | over every run with readings up to a skew out of order, the calls allowed for a key with readings between two times, wherever in the run they take effect, number at most burst plus rate times the time between |
| `Limiter.PlainRateIsBounded` | server/pkg/admission/http.go:181-192 | for a bucket that is never evicted the same bound holds over every run, with readings in any order and from any state |
| `Limiter.CallsExactly` | server/pkg/admission/http.go:169-206 | a call is allowed if and only if what was left and what flowed in since, capped at the burst, is a whole token, which it takes; a cleanup takes exactly the buckets last called for more than the ttl ago |
| `Limiter.PatientCallsAreAllowed` | server/pkg/admission/http.go:181-192 | whoever waits until a token has flowed in is allowed |
| `Limiter.RateLimiter.Allow` | server/pkg/admission/http.go:169-193 | one call, with a cleanup first every 1024 calls, answers and updates its key as the single bucket does and leaves all other keys to the cleanup |
| `Limiter.RateLimiter.Cleanup` | server/pkg/admission/http.go:194-206 | exactly the keys idle for longer than the ttl go, in all shards |
| `Limiter.Normalized` | server/pkg/admission/http.go:153-162 | defaults replace exactly the parameters no limiter can work with |
| `ShardId.UnpackInvertsPack` | server/pkg/shard/id.go:10-23 | time, node, sequence and shard can be read back from the packed identifier |
| `ShardId.WordKeepsLowTimeBits` | server/pkg/shard/id.go:58-62 | the 64-bit word keeps the low 42 bits of the time, and the value is a positive int64 exactly for half of them |
| `ShardId.NextSucceedsWhen` | server/pkg/shard/id.go:38-62 | a call succeeds exactly when its time is in the signed range and its millisecond has a sequence left |
| `ShardId.RefusalsExactly` | server/pkg/shard/id.go:38-62 | each refusal exactly, what a call leaves behind, and the value it returns, field by field |
| `ShardId.IDGenerator.Next` | server/pkg/shard/id.go:38-62 | returns the packed identifier or the error and updates time and sequence as specified |
| `ShardId.IdsAreDistinctAndPositive` | server/pkg/shard/id.go:38-62 | identifiers from any generators with distinct shard and node are positive and pairwise distinct over all runs with clocks that never run backwards |
| `ShardId.IdsAreDistinctExactly` | server/pkg/shard/id.go:38-62 | whatever its clock shows, the identifiers of a generator are distinct if and only if no two separated blocks of readings that agree modulo the time range issue a common sequence, which the readings alone decide |
| `ShardId.PlacesKeepIdsApart` | server/pkg/shard/id.go:38-62 | generators that differ in shard or node never issue the same identifier, whatever their clocks show |
| `ShardId.BackwardsClockRepeats` | server/pkg/shard/id.go:47-55 | a clock that runs backwards can repeat an identifier |
| `ShardId.BackwardsNeedNotRepeat` | server/pkg/shard/id.go:47-55 | a clock that runs backwards can also repeat nothing |
| `ShardId.ClockPastTheRangeRepeats` | server/pkg/shard/id.go:59 | a clock past the time range can repeat an identifier |
| `ShardId.BitTrick` | server/pkg/shard/router.go:26-28 | the bit test of the constructor holds exactly for powers of two |
| `ShardId.AcceptedCountsRouteHome` | server/pkg/shard/router.go:20-66 | for every count up to 64: every identifier routes to the shard it names if and only if the router accepts the count |
| `ShardId.TableIsUnique` | server/pkg/shard/router.go:42-46 | the order of the configuration does not matter |
| `ShardId.Router.Configure` | server/pkg/shard/router.go:20-46 | accepts exactly the named, unrepeated lists of a supported length and keeps them in ascending order |
| `ShardId.Router.ShardForUserID` | server/pkg/shard/router.go:55-66 | positive users route by remainder; a user that is not positive and a router without shards are errors |
| `ShardId.IssuedIdsRouteHome` | server/pkg/shard/router.go:55-66 | every identifier ever issued routes back to the shard of its generator |
| `Backfill.CopyRows` | server/cmd/shardbackfill/main.go:288-347 | for every batch size: success writes exactly the source rows, in order, in full batches and one rest; a failure leaves whole batches of a prefix |
| `Backfill.TargetTable.InsertBatch` | server/cmd/shardbackfill/main.go:303-327 | one statement takes all rows of the batch or none |
| `Backfill.FriendshipCopier.CopyFriendships` | server/cmd/shardbackfill/main.go:349-415 | splits the rows by parity into local rows and two ACTIVE edges, and succeeds exactly when the event identifiers of all crossing rows fit their column |
| `Backfill.FriendshipCopier.InsertEdge` | server/cmd/shardbackfill/main.go:388-392 | inserts one edge on the shard of its user, unless its key is taken or its event identifier is too long |
| `Backfill.FitsExactly` | server/cmd/shardbackfill/main.go:388-392 | an event identifier fits its column if and only if its two numbers have at most seventeen digits together |
| `Backfill.BackfillPreservesFriendship` | server/internal/social/infrastructure/sharded_social_service.go:70-133 | after the copy, AreFriends and the listed set are the old relation for all users |
| `Backfill.ShardedSocialService.AreFriends` | server/internal/social/infrastructure/sharded_social_service.go:70-88 | answers by the normalized row on one shard and by the ACTIVE edge across shards |
| `Backfill.ShardedSocialService.ListFriends` | server/internal/social/infrastructure/sharded_social_service.go:90-133 | lists exactly the local friends and the ACTIVE edges, nobody twice |

## Left out

- Process wiring, configuration, HTTP and WebSocket framing, generated RPC code, metrics, logging, tracing
  and load drivers: no state that the properties depend on.
- Passwords, tokens, the quality of hash functions, JSON text: hashes are uninterpreted, JSON is modelled
  as the structure it carries. Invalid JSON in a snapshot row is therefore not modelled.
- Hub, sessions, mailbox badges, catalog reads and the sharded pass-through services: they would only add
  easy members. Mail and task rewards enter as steps that add items or coins.
- Display names in events and friend lists, and the names in the order of listed edges.
- Task progress: the consumer marks after it handles, so increments are at least once and nothing is
  claimed about their number.
- The in-memory committer and the in-memory event bus, which follow other rules.
- The one-by-one publish path of the relay: the batch path is modelled; in the transition system any relay
  may mark a row published late, as that path does.
- Per-key order in the broker and PUBLISHED or DEAD as final states: several relays and backoff break both.
- Order of execution after the runtime is cancelled: a task left in a queue can be overtaken then.
  `ActorTheorems.FarmsExecuteSequentially` claims order only for a live runtime, the rest also afterwards.
- Actor objects are values in the scheduler's map, told apart by an allocation number; sharing of the hot
  snapshot by pointer is not modelled, each execution receives one value and leaves another.
- What an execution does inside the actor (cold load, pre-validation, patching the hot snapshot): an
  execution may return any result and leave any snapshot, so the theorems hold for this one as well.
- Timeouts of Submit: a caller that stops waiting does not change the runtime.
- Offsets of a consumer group that the broker forgets: an offset once committed stays.
- A saga identifier that a caller reuses for a second pair: every call draws a new one.
- Bucket numbers of farms (the mixing function of the route table): any assignment of farms to buckets works.
- Errors of etcd in the middle of a round: a round then stops early, which is a shorter list of visits.
- That a watch response carries all events up to its revision is assumed of etcd.
- Eviction of Redis generation keys, and failures of the invalidation call: freshness speaks of completed
  invalidations.
- Progress of the coalescer: its timer holds the once while it takes the mutex, and an overflowing
  submission does the reverse. Only safety is proved.
- Floating point in the limiter: tokens are real numbers.
- Shard and instance names are ordered identifiers; trimming is the difference between a name and none.
- The other tables of the backfill use the same copying loop with another query; the counting queries and
  the schema comparison around them are not modelled.
- Ownership of a manual harvest is not checked by the commit path, and so not by the model; the yield goes
  to the owner either way.
- Snapshots from before remaining yields were stored appear in the stored form, but not in runs: runs start
  at account creation.
