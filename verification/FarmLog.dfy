/** A farm is a replayable log: snapshots, versions, receipts and route epochs over every run. */
module FarmLog {
  import opened Prelude
  import opened FarmDomain
  import opened FarmRules
  import opened FarmTables
  import opened Cluster

  /** One stored row against the commands committed to its farm. */
  ghost predicate FarmHistory(f: int, row: FarmRow, log: seq<Entry>) {
    && row.version == |log|
    && Replay(INIT_PLOTS, log) == Ok(Unmarshal(row.snapshot))
    && ValidPlots(Unmarshal(row.snapshot))
    && (forall k :: 0 <= k < |log| ==> LoggedAt(f, row, log[k], k))
    && (forall k, l :: 0 <= k < l < |log| ==> log[k].cmd.routeEpoch <= log[l].cmd.routeEpoch)
  }

  ghost predicate LoggedAt(f: int, row: FarmRow, e: Entry, k: int) {
    && e.cmd.farmId == f && e.now > 0
    && (e.cmd.kind != PetAutoHarvest ==> e.cmd.baseVersion == k)
    && e.cmd.routeEpoch <= row.routeEpoch
  }

  ghost predicate Histories(farms: map<int, FarmRow>, logs: map<int, seq<Entry>>) {
    forall f :: f in farms ==> FarmHistory(f, farms[f], if f in logs then logs[f] else [])
  }

  /** The command with this key was committed to some farm as its v-th. */
  ghost predicate Logged(logs: map<int, seq<Entry>>, key: ReceiptKey, v: int) {
    exists f :: f in logs && LoggedIn(logs[f], key, v)
  }

  predicate LoggedIn(log: seq<Entry>, key: ReceiptKey, v: int) {
    && 1 <= v <= |log|
    && log[v - 1].cmd.actorUser == key.user && log[v - 1].cmd.cmdId == key.cmdId
    && RequiresReceipt(log[v - 1].cmd.kind)
  }

  ghost predicate ReceiptsLogged(receipts: map<ReceiptKey, int>, logs: map<int, seq<Entry>>) {
    forall key :: key in receipts ==> Logged(logs, key, receipts[key])
  }

  ghost predicate LogInvariant(w: World) {
    && Shape(w)
    && (forall i {:trigger w.shards[i]} :: 0 <= i < |w.shards| ==>
          Histories(w.shards[i].farms, w.logs) && ReceiptsLogged(w.shards[i].receipts, w.logs))
    && (forall f :: f in w.logs ==> HasFarm(w, f))
    && (forall i, key, v :: (i, key, v) in w.farmReplies ==> Logged(w.logs, key, v))
  }

  /** Logs only ever grow at the end. */
  ghost predicate LogsExtend(old': map<int, seq<Entry>>, new': map<int, seq<Entry>>) {
    forall f :: f in old' ==> f in new' && old'[f] <= new'[f]
  }

  lemma LoggedStays(logs: map<int, seq<Entry>>, later: map<int, seq<Entry>>, key: ReceiptKey, v: int)
    requires LogsExtend(logs, later) && Logged(logs, key, v)
    ensures Logged(later, key, v)
  {
    var f :| f in logs && LoggedIn(logs[f], key, v);
    assert LoggedIn(later[f], key, v);
  }

  lemma RowKeepsHistory(f: int, row: FarmRow, row': FarmRow, log: seq<Entry>)
    requires FarmHistory(f, row, log)
    requires row'.version == row.version && row'.snapshot == row.snapshot && row'.routeEpoch >= row.routeEpoch
    ensures FarmHistory(f, row', log)
  {
    forall k | 0 <= k < |log| ensures LoggedAt(f, row', log[k], k) {
      assert LoggedAt(f, row, log[k], k);
    }
  }

  /** A committed command extends the history by exactly itself. */
  lemma CommitExtendsHistory(w: World, v: World, cmd: Command, at: Time, eventId: nat, done: Committed)
    requires FarmCommitted(w, v, cmd, at, eventId, done)
    requires FarmHistory(cmd.farmId, w.shards[Home(w, cmd.farmId)].farms[cmd.farmId], LogOf(w, cmd.farmId))
    ensures cmd.farmId in done.db.farms
    ensures FarmHistory(cmd.farmId, done.db.farms[cmd.farmId], LogOf(w, cmd.farmId) + [Entry(cmd, at)])
  {
    var row := w.shards[Home(w, cmd.farmId)].farms[cmd.farmId];
    var plots := Unmarshal(row.snapshot);
    var after := Apply(plots, cmd, at).value.plots;
    ApplyKeepsValid(plots, cmd, at);
    SnapshotRoundTrip(after);
    PushHistory(cmd.farmId, row, LogOf(w, cmd.farmId), Entry(cmd, at), done.db.farms[cmd.farmId]);
  }

  lemma PushHistory(f: int, row: FarmRow, log: seq<Entry>, e: Entry, row': FarmRow)
    requires FarmHistory(f, row, log)
    requires e.cmd.farmId == f && e.now > 0 && e.cmd.routeEpoch == row.routeEpoch == row'.routeEpoch
    requires e.cmd.kind != PetAutoHarvest ==> e.cmd.baseVersion == row.version
    requires Apply(Unmarshal(row.snapshot), e.cmd, e.now).Ok?
    requires row'.version == row.version + 1
    requires row'.snapshot == Marshal(Apply(Unmarshal(row.snapshot), e.cmd, e.now).value.plots)
    requires ValidPlots(Unmarshal(row'.snapshot))
    ensures FarmHistory(f, row', log + [e])
  {
    ReplayPush(INIT_PLOTS, log, e);
    var longer := log + [e];
    forall k | 0 <= k < |longer| ensures LoggedAt(f, row', longer[k], k) {
      if k < |log| {
        assert LoggedAt(f, row, log[k], k);
      }
    }
    forall k, l | 0 <= k < l < |longer| ensures longer[k].cmd.routeEpoch <= longer[l].cmd.routeEpoch {
      assert LoggedAt(f, row, log[k], k);
    }
  }

  lemma InitialHistory(user: int)
    ensures FarmHistory(user, FarmRow(user, 0, Marshal(INIT_PLOTS), 0, None, None), [])
  {
    SnapshotRoundTrip(INIT_PLOTS);
  }

  // ---- Steps keep the invariant ----

  /** A quiet step: one shard changes, and there rows only gain epochs or schedules. */
  lemma QuietKeepsLog(w: World, v: World, i: nat)
    requires LogInvariant(w) && Quiet(w, v, i)
    ensures LogInvariant(v)
  {
    var db, db' := w.shards[i], v.shards[i];
    assert Histories(db.farms, w.logs) && ReceiptsLogged(db.receipts, w.logs);
    forall f | f in db'.farms
      ensures FarmHistory(f, db'.farms[f], if f in w.logs then w.logs[f] else [])
    {
      assert QuietRow(db.farms[f], db'.farms[f]);
      RowKeepsHistory(f, db.farms[f], db'.farms[f], if f in w.logs then w.logs[f] else []);
    }
    assert Histories(db'.farms, v.logs) && ReceiptsLogged(db'.receipts, v.logs);
    QuietKeepsShape(w, v, i);
    forall f | f in v.logs ensures HasFarm(v, f) {
      assert HasFarm(w, f);
    }
  }

  lemma CommitFarmKeepsLog(w: World, v: World, cmd: Command, at: Time, eventId: nat, done: Committed)
    requires LogInvariant(w) && FarmCommitted(w, v, cmd, at, eventId, done)
    ensures LogInvariant(v) && LogsExtend(w.logs, v.logs)
  {
    CommitIsLogged(w, v, cmd, at, eventId, done);
    forall j | 0 <= j < |v.shards|
      ensures Histories(v.shards[j].farms, v.logs) && ReceiptsLogged(v.shards[j].receipts, v.logs)
    {
      HistoriesAfterCommit(w, v, cmd, at, eventId, done, j);
      ReceiptsAfterCommit(w, v, cmd, at, eventId, done, j);
    }
    RepliesAfterCommit(w, v, cmd, at, eventId, done);
  }

  lemma RepliesAfterCommit(w: World, v: World, cmd: Command, at: Time, eventId: nat, done: Committed)
    requires LogInvariant(w) && FarmCommitted(w, v, cmd, at, eventId, done) && Shape(v)
    requires LogsExtend(w.logs, v.logs)
    requires RequiresReceipt(cmd.kind) ==> Logged(v.logs, ReceiptKey(cmd.actorUser, cmd.cmdId), done.result.newVersion)
    ensures forall j, k, n :: (j, k, n) in v.farmReplies ==> Logged(v.logs, k, n)
    ensures forall f :: f in v.logs ==> HasFarm(v, f)
  {
    forall j, k, n | (j, k, n) in v.farmReplies ensures Logged(v.logs, k, n) {
      if (j, k, n) in w.farmReplies {
        LoggedStays(w.logs, v.logs, k, n);
      }
    }
    forall f | f in v.logs ensures HasFarm(v, f) {
      if f != cmd.farmId {
        assert HasFarm(w, f);
      }
    }
  }

  /** The shape stays, the logs grow, and the new entry is where its reply says. */
  lemma CommitIsLogged(w: World, v: World, cmd: Command, at: Time, eventId: nat, done: Committed)
    requires LogInvariant(w) && FarmCommitted(w, v, cmd, at, eventId, done)
    ensures Shape(v) && LogsExtend(w.logs, v.logs)
    ensures cmd.farmId in done.db.farms
    ensures FarmHistory(cmd.farmId, done.db.farms[cmd.farmId], LogOf(w, cmd.farmId) + [Entry(cmd, at)])
    ensures done.result.newVersion == |LogOf(w, cmd.farmId)| + 1
    ensures RequiresReceipt(cmd.kind) ==> Logged(v.logs, ReceiptKey(cmd.actorUser, cmd.cmdId), done.result.newVersion)
  {
    FarmCommittedKeepsShape(w, v, cmd, at, eventId, done);
    assert Histories(w.shards[Home(w, cmd.farmId)].farms, w.logs);
    CommitExtendsHistory(w, v, cmd, at, eventId, done);
    if RequiresReceipt(cmd.kind) {
      assert LoggedIn(v.logs[cmd.farmId], ReceiptKey(cmd.actorUser, cmd.cmdId), |LogOf(w, cmd.farmId)| + 1);
    }
  }

  lemma HistoriesAfterCommit(w: World, v: World, cmd: Command, at: Time, eventId: nat, done: Committed, j: nat)
    requires LogInvariant(w) && FarmCommitted(w, v, cmd, at, eventId, done) && Shape(v) && j < |v.shards|
    requires cmd.farmId in done.db.farms
    requires FarmHistory(cmd.farmId, done.db.farms[cmd.farmId], LogOf(w, cmd.farmId) + [Entry(cmd, at)])
    ensures Histories(v.shards[j].farms, v.logs)
  {
    assert Histories(w.shards[j].farms, w.logs);
    assert RowsAtHome(v.shards[j].farms, j, v.wiring.shardCount);
    forall f | f in v.shards[j].farms
      ensures FarmHistory(f, v.shards[j].farms[f], if f in v.logs then v.logs[f] else [])
    {
      if f != cmd.farmId {
        assert f in w.shards[j].farms && v.shards[j].farms[f] == w.shards[j].farms[f];
      }
    }
  }

  lemma ReceiptsAfterCommit(w: World, v: World, cmd: Command, at: Time, eventId: nat, done: Committed, j: nat)
    requires LogInvariant(w) && FarmCommitted(w, v, cmd, at, eventId, done) && j < |v.shards|
    requires LogsExtend(w.logs, v.logs)
    requires RequiresReceipt(cmd.kind) ==> Logged(v.logs, ReceiptKey(cmd.actorUser, cmd.cmdId), done.result.newVersion)
    ensures ReceiptsLogged(v.shards[j].receipts, v.logs)
  {
    assert ReceiptsLogged(w.shards[j].receipts, w.logs);
    forall k | k in v.shards[j].receipts ensures Logged(v.logs, k, v.shards[j].receipts[k]) {
      if !(j == Home(w, cmd.farmId) && RequiresReceipt(cmd.kind) && k == ReceiptKey(cmd.actorUser, cmd.cmdId)) {
        assert k in w.shards[j].receipts && v.shards[j].receipts[k] == w.shards[j].receipts[k];
        LoggedStays(w.logs, v.logs, k, v.shards[j].receipts[k]);
      }
    }
  }

  lemma CreateAccountKeepsLog(w: World, user: int)
    requires LogInvariant(w)
    ensures LogInvariant(AfterCreateAccount(w, user)) && AfterCreateAccount(w, user).logs == w.logs
  {
    var v := AfterCreateAccount(w, user);
    if v != w {
      var i := Home(w, user);
      InitialHistory(user);
      forall j | 0 <= j < |v.shards|
        ensures Histories(v.shards[j].farms, v.logs) && ReceiptsLogged(v.shards[j].receipts, v.logs)
      {
        assert Histories(w.shards[j].farms, w.logs) && ReceiptsLogged(w.shards[j].receipts, w.logs);
      }
      PutKeepsShape(w, i, v.shards[i]);
      forall f | f in v.logs ensures HasFarm(v, f) {
        assert HasFarm(w, f);
      }
    }
  }

  lemma AskFarmKeepsLog(w: World, cmd: Command)
    requires LogInvariant(w)
    ensures LogInvariant(AfterAskFarm(w, cmd)) && AfterAskFarm(w, cmd).logs == w.logs
  {
    var i := Home(w, cmd.farmId);
    assert ReceiptsLogged(w.shards[i].receipts, w.logs);
    var v := AfterAskFarm(w, cmd);
    forall f | f in v.logs ensures HasFarm(v, f) {
      assert HasFarm(w, f);
    }
  }

  lemma StepKeepsLog(w: World, s: Step)
    requires LogInvariant(w)
    ensures LogInvariant(Next(w, s)) && LogsExtend(w.logs, Next(w, s).logs)
  {
    match s
    case CommitFarm(cmd, at, eventId) =>
      if FarmCommits(w, cmd, at, eventId) {
        var done := CommitFarmCommits(w, cmd, at, eventId);
        CommitFarmKeepsLog(w, Next(w, s), cmd, at, eventId, done);
      }
    case CreateAccount(user) => CreateAccountKeepsLog(w, user);
    case AskFarm(cmd) => AskFarmKeepsLog(w, cmd);
    case _ =>
      StepIsQuiet(w, s);
      QuietKeepsLog(w, Next(w, s), Touched(w, s));
  }

  // ---- The theorems ----

  lemma {:induction false} RunKeepsLog(wiring: Wiring, steps: seq<Step>)
    requires wiring.shardCount > 0
    ensures LogInvariant(Run(wiring, steps))
  {
    if steps != [] {
      RunKeepsLog(wiring, steps[..|steps| - 1]);
      StepKeepsLog(Run(wiring, steps[..|steps| - 1]), steps[|steps| - 1]);
    }
  }

  /**
   * For every interleaving of attempts, retries and receipt deletion: a farm's stored snapshot is the
   * fold of its committed commands through the snapshot column, its version is the length of that log,
   * an external command sits at the index its base version names and so at most once, and the epochs
   * of the log never decrease or exceed the stored fence.
   */
  lemma FarmIsAReplayableLog(wiring: Wiring, steps: seq<Step>, f: int)
    requires wiring.shardCount > 0 && HasFarm(Run(wiring, steps), f)
    ensures var w := Run(wiring, steps); var log := LogOf(w, f);
      var row := w.shards[Home(w, f)].farms[f];
      && Replay(INIT_PLOTS, log) == Ok(Unmarshal(row.snapshot))
      && row.version == |log|
      && (forall k :: 0 <= k < |log| && log[k].cmd.kind != PetAutoHarvest ==> log[k].cmd.baseVersion == k)
      && (forall k, l :: 0 <= k < |log| && 0 <= l < |log| && SameExternal(log[k].cmd, log[l].cmd) ==> k == l)
      && (forall k, l :: 0 <= k <= l < |log| ==> log[k].cmd.routeEpoch <= log[l].cmd.routeEpoch <= row.routeEpoch)
      && ValidPlots(Unmarshal(row.snapshot))
  {
    RunKeepsLog(wiring, steps);
    var w := Run(wiring, steps);
    var i := Home(w, f);
    assert Histories(w.shards[i].farms, w.logs);
    var log, row := LogOf(w, f), w.shards[i].farms[f];
    assert FarmHistory(f, row, log);
    forall k | 0 <= k < |log|
      ensures log[k].cmd.routeEpoch <= row.routeEpoch
      ensures log[k].cmd.kind != PetAutoHarvest ==> log[k].cmd.baseVersion == k
    {
      assert LoggedAt(f, row, log[k], k);
    }
  }

  predicate SameExternal(a: Command, b: Command) { a == b && a.kind != PetAutoHarvest }

  /** Every reply ever given for a receipt, fresh or replayed, names the version it was logged at. */
  lemma ReplyNamesItsLogEntry(wiring: Wiring, steps: seq<Step>, shard: nat, key: ReceiptKey, v: int)
    requires wiring.shardCount > 0 && (shard, key, v) in Run(wiring, steps).farmReplies
    ensures Logged(Run(wiring, steps).logs, key, v)
  {
    RunKeepsLog(wiring, steps);
  }

  /** The stored fence of one farm, 0 before the farm exists. */
  function FenceOf(w: World, f: int): int
    requires Shape(w)
  {
    if HasFarm(w, f) then w.shards[Home(w, f)].farms[f].routeEpoch else 0
  }

  /** Entries beyond a mark carry at least a given epoch. */
  ghost predicate FencedFrom(log: seq<Entry>, mark: nat, epoch: int) {
    forall k :: mark <= k < |log| ==> log[k].cmd.routeEpoch >= epoch
  }

  /** What one step may do to a farm: its fence never falls, and it logs at most one fenced command. */
  ghost predicate FenceStep(w: World, v: World, f: int)
    requires Shape(w) && Shape(v)
  {
    && HasFarm(v, f) && FenceOf(w, f) <= FenceOf(v, f)
    && (LogOf(v, f) == LogOf(w, f)
        || exists e: Entry :: LogOf(v, f) == LogOf(w, f) + [e] && e.cmd.routeEpoch == FenceOf(w, f))
  }

  lemma CommitRespectsFence(w: World, v: World, cmd: Command, at: Time, eventId: nat, done: Committed, f: int)
    requires FarmCommitted(w, v, cmd, at, eventId, done) && Shape(v) && HasFarm(w, f)
    ensures FenceStep(w, v, f)
  {
    if f == cmd.farmId {
      assert LogOf(v, f) == LogOf(w, f) + [Entry(cmd, at)];
    }
  }

  lemma StepRespectsFence(w: World, s: Step, f: int)
    requires Shape(w) && HasFarm(w, f)
    ensures Shape(Next(w, s)) && FenceStep(w, Next(w, s), f)
  {
    StepKeepsShape(w, s);
    var v := Next(w, s);
    match s
    case CommitFarm(cmd, at, eventId) =>
      if FarmCommits(w, cmd, at, eventId) {
        var done := CommitFarmCommits(w, cmd, at, eventId);
        CommitRespectsFence(w, v, cmd, at, eventId, done, f);
      }
    case CreateAccount(user) =>
    case AskFarm(cmd) =>
    case _ =>
      StepIsQuiet(w, s);
      QuietRespectsFence(w, v, Touched(w, s), f);
  }

  lemma QuietRespectsFence(w: World, v: World, i: nat, f: int)
    requires Shape(w) && Shape(v) && Quiet(w, v, i) && HasFarm(w, f)
    ensures FenceStep(w, v, f)
  {
  }

  ghost function RunFrom(w: World, later: seq<Step>): (v: World)
    requires Shape(w)
    ensures Shape(v)
    decreases |later|
  {
    if later == [] then w
    else
      StepKeepsShape(w, later[0]);
      RunFrom(Next(w, later[0]), later[1..])
  }

  lemma RunFromCons(w: World, later: seq<Step>, v: World)
    requires Shape(w) && later != [] && v == Next(w, later[0])
    ensures Shape(v) && RunFrom(w, later) == RunFrom(v, later[1..])
  {
    StepKeepsShape(w, later[0]);
  }

  lemma OneStepOver<T>(steps: seq<T>, later: seq<T>)
    requires later != []
    ensures steps + later == (steps + [later[0]]) + later[1..]
  {
  }

  lemma {:induction false} RunAppend(wiring: Wiring, steps: seq<Step>, w: World, later: seq<Step>, whole: seq<Step>)
    requires wiring.shardCount > 0 && w == Run(wiring, steps) && whole == steps + later
    ensures Run(wiring, whole) == RunFrom(w, later)
    decreases |later|
  {
    if later == [] {
      assert whole == steps;
    } else {
      RunSnoc(wiring, steps, later[0]);
      var v := Run(wiring, steps + [later[0]]);
      RunFromCons(w, later, v);
      OneStepOver(steps, later);
      RunAppend(wiring, steps + [later[0]], v, later[1..], whole);
    }
  }

  lemma {:induction false} FenceHoldsFrom(w: World, base: seq<Entry>, later: seq<Step>, f: int, e: int)
    requires Shape(w) && HasFarm(w, f) && FenceOf(w, f) >= e && base <= LogOf(w, f) && FencedFrom(LogOf(w, f), |base|, e)
    ensures var v := RunFrom(w, later);
      HasFarm(v, f) && FenceOf(v, f) >= e && base <= LogOf(v, f) && FencedFrom(LogOf(v, f), |base|, e)
    decreases |later|
  {
    if later != [] {
      OneMoreStepRespectsFence(w, later[0], f, base, e);
      FenceHoldsFrom(Next(w, later[0]), base, later[1..], f, e);
    }
  }

  /**
   * Once a farm's fence stands at epoch e, nothing that happens afterwards, from stale resolver
   * entries, hot actors or retries, commits a command of that farm with a smaller epoch.
   */
  lemma NoStaleCommitAfterFence(wiring: Wiring, steps: seq<Step>, later: seq<Step>, f: int, e: int)
    requires wiring.shardCount > 0 && HasFarm(Run(wiring, steps), f)
    requires FenceOf(Run(wiring, steps), f) >= e
    ensures var v := Run(wiring, steps + later);
      && HasFarm(v, f) && FenceOf(v, f) >= e
      && LogOf(Run(wiring, steps), f) <= LogOf(v, f)
      && FencedFrom(LogOf(v, f), |LogOf(Run(wiring, steps), f)|, e)
  {
    RunAppend(wiring, steps, Run(wiring, steps), later, steps + later);
    FenceHoldsFrom(Run(wiring, steps), LogOf(Run(wiring, steps), f), later, f, e);
  }

  lemma OneMoreStepRespectsFence(u: World, s: Step, f: int, base: seq<Entry>, e: int)
    requires Shape(u) && HasFarm(u, f)
    requires base <= LogOf(u, f) && FenceOf(u, f) >= e && FencedFrom(LogOf(u, f), |base|, e)
    ensures var v := Next(u, s);
      Shape(v) && HasFarm(v, f) && FenceOf(v, f) >= e && base <= LogOf(v, f) && FencedFrom(LogOf(v, f), |base|, e)
  {
    StepRespectsFence(u, s, f);
    FenceStepExtends(u, Next(u, s), f, base, e);
  }

  lemma FenceStepExtends(u: World, v: World, f: int, base: seq<Entry>, e: int)
    requires Shape(u) && Shape(v) && FenceStep(u, v, f)
    requires base <= LogOf(u, f) && FenceOf(u, f) >= e && FencedFrom(LogOf(u, f), |base|, e)
    ensures base <= LogOf(v, f) && FencedFrom(LogOf(v, f), |base|, e)
  {
  }

  /** The cutover does what it promises: a successful advance puts the fence at exactly its epoch. */
  lemma AdvanceSetsFence(w: World, f: int, epoch: int)
    requires Shape(w)
    ensures FinishAdvance(w.shards[Home(w, f)], f, epoch).Ok?
       <==> HasFarm(w, f) && epoch > 0 && epoch >= FenceOf(w, f)
    ensures FinishAdvance(w.shards[Home(w, f)], f, epoch).Ok? ==> FenceOf(Next(w, Advance(f, epoch)), f) == epoch
    ensures FinishAdvance(w.shards[Home(w, f)], f, epoch).Err? ==> Next(w, Advance(f, epoch)) == w
  {
    StepKeepsShape(w, Advance(f, epoch));
  }
}
