/** The one-time split of the old database into two shards, and the reader that must not notice it. */
module Backfill {
  import opened Prelude
  import opened FriendSaga

  // ---- Copying a table in batches ----

  datatype CopyError = ReadFailed | WriteFailed | DuplicateRow | EventIdTooLong | AuditFailed

  predicate Full(batches: seq<seq<int>>, size: nat) {
    forall i :: 0 <= i < |batches| ==> |batches[i]| == size
  }

  function Flatten(batches: seq<seq<int>>): seq<int> {
    if batches == [] then [] else Flatten(batches[..|batches| - 1]) + batches[|batches| - 1]
  }

  lemma FlattenPush(batches: seq<seq<int>>, b: seq<int>)
    ensures Flatten(batches + [b]) == Flatten(batches) + b
  {
    assert (batches + [b])[..|batches|] == batches;
  }

  /** Every statement is a batch of the given size, except that the last may be a shorter rest. */
  predicate Batched(statements: seq<seq<int>>, size: nat) {
    statements == [] || (Full(statements[..|statements| - 1], size) && 1 <= |statements[|statements| - 1]| <= size)
  }

  /** A target table: rows in insertion order, and the statements that inserted them. */
  class TargetTable {
    var rows: seq<int>
    ghost var statements: seq<seq<int>>

    constructor ()
      ensures rows == [] && statements == []
    {
      rows, statements := [], [];
    }

    /** One multi-row INSERT in its own transaction; it takes all rows of the batch or none. */
    method InsertBatch(batch: seq<int>, fails: bool) returns (ok: bool)
      requires rows == Flatten(statements)
      modifies this
      ensures ok == !fails && rows == Flatten(statements)
      ensures rows == (if fails then old(rows) else old(rows) + batch)
      ensures statements == (if fails then old(statements) else old(statements) + [batch])
    {
      ok := !fails;
      if ok {
        FlattenPush(statements, batch);
        rows := rows + batch;
        statements := statements + [batch];
      }
    }
  }

  /**
   * Streams the source rows into the target, one statement per full batch and one for the rest. Success
   * writes exactly the source rows in order; a failure leaves whole batches of a prefix behind, and
   * there is no failure unless a read or a write fails.
   */
  method CopyRows(source: seq<int>, target: TargetTable, batchSize: nat, readFailsAt: Option<nat>, writeFails: nat -> bool)
    returns (copied: nat, r: Result<(), CopyError>)
    requires batchSize > 0 && target.rows == [] && target.statements == []
    modifies target
    ensures target.rows == Flatten(target.statements) && target.rows <= source
    ensures r.Ok? ==> target.rows == source && copied == |source| && Batched(target.statements, batchSize)
    ensures r.Err? ==> Full(target.statements, batchSize)
    ensures (forall k :: !writeFails(k)) && (readFailsAt.None? || readFailsAt.value >= |source|) ==> r.Ok?
  {
    copied := 0;
    var batch := [];
    var flushes := 0;
    while copied < |source|
      invariant 0 <= copied <= |source| && |batch| < batchSize
      invariant target.rows + batch == source[..copied] && target.rows == Flatten(target.statements)
      invariant Full(target.statements, batchSize)
    {
      if readFailsAt == Some(copied) {
        return copied, Err(ReadFailed);
      }
      batch := Appended(source, copied, target.rows, batch);
      copied := copied + 1;
      if |batch| == batchSize {
        var ok := target.InsertBatch(batch, writeFails(flushes));
        flushes := flushes + 1;
        if !ok {
          return copied, Err(WriteFailed);
        }
        batch := [];
      }
    }
    var ok := FlushRest(target, batch, batchSize, writeFails(flushes));
    return copied, if ok then Ok(()) else Err(WriteFailed);
  }

  method FlushRest(target: TargetTable, batch: seq<int>, batchSize: nat, fails: bool) returns (ok: bool)
    requires target.rows == Flatten(target.statements) && Full(target.statements, batchSize) && |batch| < batchSize
    modifies target
    ensures target.rows == Flatten(target.statements)
    ensures ok ==> target.rows == old(target.rows) + batch && Batched(target.statements, batchSize)
    ensures !ok ==> fails && target.rows == old(target.rows) && Full(target.statements, batchSize)
  {
    if batch == [] {
      return true;
    }
    ok := target.InsertBatch(batch, fails);
    if ok {
      assert target.statements[..|target.statements| - 1] == old(target.statements);
    }
  }

  method Appended(source: seq<int>, k: nat, ghost written: seq<int>, batch: seq<int>) returns (longer: seq<int>)
    requires k < |source| && written + batch == source[..k]
    ensures written + longer == source[..k + 1] && |longer| == |batch| + 1
  {
    longer := batch + [source[k]];
    assert source[..k + 1] == source[..k] + [source[k]];
  }

  // ---- Splitting friendships ----

  datatype Friendship = Friendship(id: nat, a: int, b: int)

  datatype ShardTables = ShardTables(friendships: seq<Friendship>, edges: Edges)

  /** What the old table's constraints guarantee: ordered pairs, each once, identifiers once. */
  ghost predicate LegacyTable(rows: seq<Friendship>) {
    && (forall i :: 0 <= i < |rows| ==> 0 < rows[i].a < rows[i].b)
    && (forall i, j :: 0 <= i < j < |rows| ==> rows[i].id != rows[j].id && (rows[i].a != rows[j].a || rows[i].b != rows[j].b))
  }

  predicate SameShard(r: Friendship) { r.a % 2 == r.b % 2 }

  function Digits(n: int): nat { if n < 10 then 1 else 1 + Digits(n / 10) }

  const EVENT_COLUMN := 36

  /** Eighteen characters of prefix, two numbers and a dash must fit the event column. */
  predicate Fits(id: nat, user: int) { 18 + Digits(id) + 1 + Digits(user) <= EVENT_COLUMN }

  function PowerOfTen(n: nat): nat { if n == 0 then 1 else 10 * PowerOfTen(n - 1) }

  /** A number of so many decimal digits. */
  lemma {:induction false} DigitsExactly(n: nat)
    ensures Digits(n) >= 1 && n < PowerOfTen(Digits(n)) && (n > 0 ==> PowerOfTen(Digits(n) - 1) <= n)
  {
    if n >= 10 {
      DigitsExactly(n / 10);
      assert n == 10 * (n / 10) + n % 10;
      assert PowerOfTen(Digits(n / 10)) == 10 * PowerOfTen(Digits(n / 10) - 1);
    }
  }

  /** The column of thirty-six characters leaves seventeen for the two numbers. */
  lemma FitsExactly(id: nat, user: int)
    ensures Fits(id, user) <==> Digits(id) + Digits(user) <= 17
  {
  }

  predicate RowFits(r: Friendship) { SameShard(r) || (Fits(r.id, r.a) && Fits(r.id, r.b)) }

  function RowsOf(rows: seq<Friendship>, p: nat): seq<Friendship> {
    if rows == [] then []
    else
      var r := rows[|rows| - 1];
      RowsOf(rows[..|rows| - 1], p) + if SameShard(r) && r.a % 2 == p then [r] else []
  }

  /** The directed edges of the rows that cross, on the shard of their first user. */
  function EdgesOf(rows: seq<Friendship>, p: nat): Edges {
    if rows == [] then map[]
    else
      var r := rows[|rows| - 1];
      var before := EdgesOf(rows[..|rows| - 1], p);
      if SameShard(r) then before
      else if r.a % 2 == p then before[Pair(r.a, r.b) := Edge(Active, Legacy(r.id, r.a))]
      else if r.b % 2 == p then before[Pair(r.b, r.a) := Edge(Active, Legacy(r.id, r.b))]
      else before
  }

  ghost predicate Befriends(rows: seq<Friendship>, u: int, f: int) {
    exists i :: 0 <= i < |rows| && ((rows[i].a == u && rows[i].b == f) || (rows[i].a == f && rows[i].b == u))
  }

  lemma BefriendsPush(rows: seq<Friendship>, r: Friendship, u: int, f: int)
    ensures Befriends(rows + [r], u, f) <==> Befriends(rows, u, f) || (r.a == u && r.b == f) || (r.a == f && r.b == u)
  {
    if Befriends(rows, u, f) {
      var i :| 0 <= i < |rows| && ((rows[i].a == u && rows[i].b == f) || (rows[i].a == f && rows[i].b == u));
      assert (rows + [r])[i] == rows[i];
    }
    assert (rows + [r])[|rows|] == r;
  }

  /** An edge exists exactly for friends on different shards, on the shard of its own user, and is ACTIVE. */
  lemma {:induction false} EdgesAreTheCrossingFriends(rows: seq<Friendship>, u: int, f: int)
    ensures Pair(u, f) in EdgesOf(rows, u % 2) <==> u % 2 != f % 2 && Befriends(rows, u, f)
    ensures Pair(u, f) in EdgesOf(rows, u % 2) ==> EdgesOf(rows, u % 2)[Pair(u, f)].state == Active
  {
    if rows != [] {
      var front, r := rows[..|rows| - 1], rows[|rows| - 1];
      EdgesAreTheCrossingFriends(front, u, f);
      assert rows == front + [r];
      BefriendsPush(front, r, u, f);
    }
  }

  /** A row of the normalized table exists exactly for friends on one shard. */
  lemma {:induction false} RowsAreTheLocalFriends(rows: seq<Friendship>, u: int, f: int)
    requires u % 2 == f % 2
    ensures Befriends(RowsOf(rows, u % 2), u, f) <==> Befriends(rows, u, f)
  {
    if rows != [] {
      var front, r := rows[..|rows| - 1], rows[|rows| - 1];
      RowsAreTheLocalFriends(front, u, f);
      assert rows == front + [r];
      BefriendsPush(front, r, u, f);
      if SameShard(r) && r.a % 2 == u % 2 {
        BefriendsPush(RowsOf(front, u % 2), r, u, f);
      } else {
        assert RowsOf(front, u % 2) + [] == RowsOf(front, u % 2);
      }
    }
  }

  lemma {:induction false} LocalRowsAreRows(rows: seq<Friendship>, p: nat)
    ensures forall i :: 0 <= i < |RowsOf(rows, p)| ==> RowsOf(rows, p)[i] in rows && RowsOf(rows, p)[i].a % 2 == p && SameShard(RowsOf(rows, p)[i])
  {
    if rows != [] {
      LocalRowsAreRows(rows[..|rows| - 1], p);
    }
  }

  /** A shard's share of the rows still satisfies the table's constraints. */
  lemma {:induction false} LocalTableIsLegacy(rows: seq<Friendship>, p: nat)
    requires LegacyTable(rows)
    ensures LegacyTable(RowsOf(rows, p))
  {
    if rows != [] {
      var front, r := rows[..|rows| - 1], rows[|rows| - 1];
      LocalTableIsLegacy(front, p);
      forall q | q in RowsOf(front, p) ensures Distinct(q, r) {
        LocalRowsAreRows(front, p);
        EarlierRowIsDistinct(rows, q);
      }
      LegacyPush(RowsOf(front, p), r);
    }
  }

  predicate Distinct(q: Friendship, r: Friendship) { q.id != r.id && (q.a != r.a || q.b != r.b) }

  lemma EarlierRowIsDistinct(rows: seq<Friendship>, q: Friendship)
    requires LegacyTable(rows) && rows != [] && q in rows[..|rows| - 1]
    ensures Distinct(q, rows[|rows| - 1])
  {
    var i := IndexIn(rows[..|rows| - 1], q);
    assert rows[i] == q;
  }

  lemma LegacyPush(rows: seq<Friendship>, r: Friendship)
    requires LegacyTable(rows) && 0 < r.a < r.b && forall q :: q in rows ==> Distinct(q, r)
    ensures LegacyTable(rows + [r])
  {
    forall i | 0 <= i < |rows| ensures Distinct((rows + [r])[i], r) {
      assert rows[i] in rows;
    }
  }

  lemma IndexIn<T>(s: seq<T>, x: T) returns (i: nat)
    requires x in s
    ensures i < |s| && s[i] == x
  {
    i :| i < |s| && s[i] == x;
  }

  class FriendshipCopier {
    var shard0: ShardTables
    var shard1: ShardTables

    constructor ()
      ensures shard0 == ShardTables([], map[]) && shard1 == ShardTables([], map[])
    {
      shard0, shard1 := ShardTables([], map[]), ShardTables([], map[]);
    }

    /** INSERT one directed edge; its key must be free and its event identifier must fit the column. */
    method InsertEdge(user: int, friend: int, id: nat) returns (r: Result<(), CopyError>)
      modifies this
      ensures var t := if user % 2 == 0 then old(shard0) else old(shard1);
        if !Fits(id, user) then r == Err(EventIdTooLong) && shard0 == old(shard0) && shard1 == old(shard1)
        else if Pair(user, friend) in t.edges then r == Err(DuplicateRow) && shard0 == old(shard0) && shard1 == old(shard1)
        else
          var t' := t.(edges := t.edges[Pair(user, friend) := Edge(Active, Legacy(id, user))]);
          r == Ok(()) && (if user % 2 == 0 then shard0 == t' && shard1 == old(shard1) else shard0 == old(shard0) && shard1 == t')
    {
      if !Fits(id, user) {
        return Err(EventIdTooLong);
      }
      var p, e := Pair(user, friend), Edge(Active, Legacy(id, user));
      if user % 2 == 0 {
        if p in shard0.edges { return Err(DuplicateRow); }
        shard0 := shard0.(edges := shard0.edges[p := e]);
      } else {
        if p in shard1.edges { return Err(DuplicateRow); }
        shard1 := shard1.(edges := shard1.edges[p := e]);
      }
      return Ok(());
    }

    /**
     * Splits every row by the parity of its users: one shard keeps the row as it is, two shards get one
     * ACTIVE edge each. It succeeds exactly when every crossing row's event identifiers fit.
     */
    method CopyFriendships(rows: seq<Friendship>) returns (r: Result<(), CopyError>)
      requires LegacyTable(rows) && shard0 == ShardTables([], map[]) && shard1 == ShardTables([], map[])
      modifies this
      ensures r.Ok? <==> forall i :: 0 <= i < |rows| ==> RowFits(rows[i])
      ensures r.Ok? ==> shard0 == ShardTables(RowsOf(rows, 0), EdgesOf(rows, 0)) && shard1 == ShardTables(RowsOf(rows, 1), EdgesOf(rows, 1))
    {
      var rows0, rows1, edges0, edges1 := 0, 0, 0, 0;
      var k := 0;
      while k < |rows|
        invariant 0 <= k <= |rows|
        invariant shard0 == ShardTables(RowsOf(rows[..k], 0), EdgesOf(rows[..k], 0))
        invariant shard1 == ShardTables(RowsOf(rows[..k], 1), EdgesOf(rows[..k], 1))
        invariant |shard0.friendships| == rows0 && |shard1.friendships| == rows1
        invariant |shard0.edges| == edges0 && |shard1.edges| == edges1
        invariant forall i :: 0 <= i < k ==> RowFits(rows[i])
      {
        var row := rows[k];
        assert rows[..k + 1][..k] == rows[..k] && rows[..k + 1][k] == row;
        if SameShard(row) {
          if row.a % 2 == 0 {
            rows0 := rows0 + 1;
            shard0 := shard0.(friendships := shard0.friendships + [row]);
          } else {
            rows1 := rows1 + 1;
            shard1 := shard1.(friendships := shard1.friendships + [row]);
          }
        } else {
          NotYetThere(rows, k);
          var inserted := InsertEdge(row.a, row.b, row.id);
          if inserted.Err? {
            return inserted;
          }
          inserted := InsertEdge(row.b, row.a, row.id);
          if inserted.Err? {
            return inserted;
          }
          edges0 := edges0 + 1;
          edges1 := edges1 + 1;
        }
        k := k + 1;
      }
      assert rows[..k] == rows;
      if |shard0.friendships| != rows0 || |shard1.friendships| != rows1 || |shard0.edges| != edges0 || |shard1.edges| != edges1 {
        return Err(AuditFailed);
      }
      return Ok(());
    }

    lemma NotYetThere(rows: seq<Friendship>, k: nat)
      requires LegacyTable(rows) && k < |rows|
      ensures Pair(rows[k].a, rows[k].b) !in EdgesOf(rows[..k], rows[k].a % 2)
      ensures Pair(rows[k].b, rows[k].a) !in EdgesOf(rows[..k], rows[k].b % 2)
    {
      var a, b := rows[k].a, rows[k].b;
      EdgesAreTheCrossingFriends(rows[..k], a, b);
      EdgesAreTheCrossingFriends(rows[..k], b, a);
      assert !Befriends(rows[..k], a, b) && !Befriends(rows[..k], b, a);
    }
  }

  // ---- The reader ----

  /** The sharded social service over the two copied shards. */
  class ShardedSocialService {
    const shards: seq<ShardTables>

    constructor (shards: seq<ShardTables>)
      requires |shards| == 2
      ensures this.shards == shards
    {
      this.shards := shards;
    }

    method AreFriends(a: int, b: int) returns (yes: bool)
      requires |shards| == 2
      ensures yes <==> Together(shards, a, b)
    {
      var left, right := a % 2, b % 2;
      if left == right {
        yes := FindRow(shards[left].friendships, if a > b then b else a, if a > b then a else b);
        return;
      }
      var edges := shards[left].edges;
      return Pair(a, b) in edges && edges[Pair(a, b)].state == Active;
    }

    method FindRow(rows: seq<Friendship>, a: int, b: int) returns (found: bool)
      ensures found <==> exists i :: 0 <= i < |rows| && rows[i].a == a && rows[i].b == b
    {
      found := false;
      var k := 0;
      while k < |rows| && !found
        invariant 0 <= k <= |rows|
        invariant found <==> exists i :: 0 <= i < k && rows[i].a == a && rows[i].b == b
      {
        found := rows[k].a == a && rows[k].b == b;
        k := k + 1;
      }
    }

    /** Local friends first, then the ACTIVE edges not seen yet; nobody is listed twice. */
    method ListFriends(user: int) returns (friends: seq<int>)
      requires |shards| == 2 && LegacyTable(shards[user % 2].friendships)
      ensures forall i, j :: 0 <= i < j < |friends| ==> friends[i] != friends[j]
      ensures forall f :: f in friends <==> Listed(shards[user % 2], user, f)
    {
      var t := shards[user % 2];
      friends := LocalFriends(t.friendships, user);
      var rest := t.edges.Keys;
      while rest != {}
        invariant rest <= t.edges.Keys
        invariant forall i, j :: 0 <= i < j < |friends| ==> friends[i] != friends[j]
        invariant forall f :: f in friends <==> LocalFriend(t.friendships, user, f) || (Pair(user, f) in t.edges.Keys - rest && t.edges[Pair(user, f)].state == Active)
        decreases rest
      {
        var p := Pick(rest);
        rest := rest - {p};
        if p.user == user && t.edges[p].state == Active && p.friend !in friends {
          friends := friends + [p.friend];
        }
      }
    }

    method LocalFriends(rows: seq<Friendship>, user: int) returns (friends: seq<int>)
      requires LegacyTable(rows)
      ensures forall i, j :: 0 <= i < j < |friends| ==> friends[i] != friends[j]
      ensures forall f :: f in friends <==> LocalFriend(rows, user, f)
    {
      friends := [];
      var k := 0;
      while k < |rows|
        invariant 0 <= k <= |rows|
        invariant forall i, j :: 0 <= i < j < |friends| ==> friends[i] != friends[j]
        invariant forall f :: f in friends <==> LocalFriend(rows[..k], user, f)
      {
        assert rows[..k + 1] == rows[..k] + [rows[k]];
        if rows[k].a == user || rows[k].b == user {
          var f := if rows[k].a == user then rows[k].b else rows[k].a;
          assert !LocalFriend(rows[..k], user, f);
          friends := friends + [f];
        }
        forall f ensures LocalFriend(rows[..k + 1], user, f) <==>
            (LocalFriend(rows[..k], user, f) || (rows[k].a == user && rows[k].b == f) || (rows[k].a == f && rows[k].b == user))
        {
          BefriendsPush(rows[..k], rows[k], user, f);
        }
        k := k + 1;
      }
      assert rows[..k] == rows;
    }
  }

  ghost predicate LocalFriend(rows: seq<Friendship>, user: int, f: int) { Befriends(rows, user, f) }

  /** What ListFriends lists. */
  ghost predicate Listed(t: ShardTables, user: int, f: int) {
    LocalFriend(t.friendships, user, f) || (Pair(user, f) in t.edges && t.edges[Pair(user, f)].state == Active)
  }

  /** What AreFriends answers. */
  ghost predicate Together(shards: seq<ShardTables>, a: int, b: int)
    requires |shards| == 2
  {
    if a % 2 == b % 2 then
      exists i :: 0 <= i < |shards[a % 2].friendships|
        && shards[a % 2].friendships[i].a == (if a > b then b else a) && shards[a % 2].friendships[i].b == (if a > b then a else b)
    else
      Pair(a, b) in shards[a % 2].edges && shards[a % 2].edges[Pair(a, b)].state == Active
  }

  ghost function Copied(rows: seq<Friendship>): seq<ShardTables> {
    [ShardTables(RowsOf(rows, 0), EdgesOf(rows, 0)), ShardTables(RowsOf(rows, 1), EdgesOf(rows, 1))]
  }

  /** After the copy, sharded AreFriends and the ListFriends set are the old relation, for all users. */
  lemma BackfillPreservesFriendship(rows: seq<Friendship>, a: int, b: int)
    requires LegacyTable(rows)
    ensures Together(Copied(rows), a, b) <==> Befriends(rows, a, b)
    ensures Listed(Copied(rows)[a % 2], a, b) <==> Befriends(rows, a, b)
  {
    EdgesAreTheCrossingFriends(rows, a, b);
    var local := RowsOf(rows, a % 2);
    LocalRowsAreRows(rows, a % 2);
    if a % 2 == b % 2 {
      RowsAreTheLocalFriends(rows, a, b);
      if Befriends(local, a, b) {
        var i :| 0 <= i < |local| && ((local[i].a == a && local[i].b == b) || (local[i].a == b && local[i].b == a));
        assert local[i] in rows;
      }
    } else {
      assert !Befriends(local, a, b);
    }
  }
}
