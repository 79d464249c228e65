/** Global identifiers that name their shard, and the router that sends them home. */
module ShardId {
  import opened Prelude

  const MAX_SHARD := 63

  // ---- Packing ----

  /** Milliseconds, node, sequence and shard, from the high bits down. */
  function Pack(ms: nat, node: nat, sequence: nat, shard: nat): nat { ((ms * 256 + node) * 256 + sequence) * 64 + shard }

  predicate Fields(node: nat, sequence: nat, shard: nat) { node < 256 && sequence < 256 && shard < 64 }

  lemma UnpackInvertsPack(ms: nat, node: nat, sequence: nat, shard: nat)
    requires Fields(node, sequence, shard)
    ensures var v := Pack(ms, node, sequence, shard);
      v % 64 == shard && v / 64 % 256 == sequence && v / 64 / 256 % 256 == node && v / 64 / 256 / 256 == ms
  {
    var v := Pack(ms, node, sequence, shard);
    assert v / 64 == (ms * 256 + node) * 256 + sequence;
    assert v / 64 / 256 == ms * 256 + node;
  }

  /** Shifts of a uint64 drop what leaves the word: only the low 42 bits of the time survive. */
  function Packed64(ms: nat, node: nat, sequence: nat, shard: nat): nat {
    Pack(ms, node, sequence, shard) % 0x1_0000_0000_0000_0000
  }

  const TIME_RANGE: nat := 0x400_0000_0000

  lemma WordKeepsLowTimeBits(ms: nat, node: nat, sequence: nat, shard: nat)
    requires Fields(node, sequence, shard)
    ensures Packed64(ms, node, sequence, shard) == Pack(ms % TIME_RANGE, node, sequence, shard)
    ensures Packed64(ms, node, sequence, shard) <= MAX_INT64 <==> ms % TIME_RANGE < TIME_RANGE / 2
  {
    var low, high := ms % TIME_RANGE, ms / TIME_RANGE;
    var word := 0x1_0000_0000_0000_0000;
    assert ms == high * TIME_RANGE + low;
    assert Pack(ms, node, sequence, shard) == high * word + Pack(low, node, sequence, shard);
    assert Pack(low, node, sequence, shard) < word;
    ModOfSum(high, word, Pack(low, node, sequence, shard));
  }

  lemma ModOfSum(q: nat, m: nat, r: nat)
    requires m > 0 && r < m
    ensures (q * m + r) % m == r && (q * m + r) / m == q
  {
    var x := q * m + r;
    var d := x / m - q;
    assert m * (x / m) + x % m == x;
    assert m * d == m * (x / m) - m * q;
  }

  // ---- The generator ----

  datatype IdError = BeforeEpoch | SequenceExhausted | OutOfRange

  datatype Generator = Generator(shard: nat, node: nat, lastMs: nat, sequence: nat)

  predicate GeneratorSound(g: Generator) { Fields(g.node, g.sequence, g.shard) }

  /** One call at ms since the configured epoch: the new state, and the identifier or why there is none. */
  function AfterNext(g: Generator, ms: int): (Generator, Result<int, IdError>) {
    if ms < 0 then (g, Err(BeforeEpoch))
    else if ms == g.lastMs && g.sequence == 255 then (g, Err(SequenceExhausted))
    else
      var g' := if ms == g.lastMs then g.(sequence := g.sequence + 1) else g.(lastMs := ms, sequence := 0);
      var value := Packed64(ms, g.node, g'.sequence, g.shard);
      (g', if value > MAX_INT64 then Err(OutOfRange) else Ok(value))
  }

  class IDGenerator {
    const epochMs: int
    const shard: nat
    const node: nat
    var lastMs: nat
    var sequence: nat

    ghost function Content(): Generator
      reads this
    {
      Generator(shard, node, lastMs, sequence)
    }

    constructor (epochMs: int, shard: nat, node: nat)
      requires shard <= MAX_SHARD && node < 256
      ensures Content() == Generator(shard, node, 0, 0) && this.epochMs == epochMs && GeneratorSound(Content())
    {
      this.epochMs, this.shard, this.node := epochMs, shard, node;
      lastMs, sequence := 0, 0;
    }

    method Next(nowMs: int) returns (r: Result<int, IdError>)
      requires GeneratorSound(Content())
      modifies this
      ensures (Content(), r) == AfterNext(old(Content()), nowMs - epochMs) && GeneratorSound(Content())
    {
      var ms := nowMs - epochMs;
      if ms < 0 {
        return Err(BeforeEpoch);
      }
      if ms == lastMs {
        if sequence == 255 {
          return Err(SequenceExhausted);
        }
        sequence := sequence + 1;
      } else {
        lastMs := ms;
        sequence := 0;
      }
      var value := Packed64(ms, node, sequence, shard);
      if value > MAX_INT64 {
        return Err(OutOfRange);
      }
      return Ok(value);
    }
  }

  /** A call succeeds exactly when its time is in the signed range and its millisecond has a sequence left. */
  lemma NextSucceedsWhen(g: Generator, ms: int)
    requires GeneratorSound(g)
    ensures AfterNext(g, ms).1.Ok? <==>
      ms >= 0 && ms % TIME_RANGE < TIME_RANGE / 2 && !(ms == g.lastMs && g.sequence == 255)
  {
    if ms >= 0 && !(ms == g.lastMs && g.sequence == 255) {
      var g' := AfterNext(g, ms).0;
      WordKeepsLowTimeBits(ms, g.node, g'.sequence, g.shard);
    }
  }

  /** Each refusal, and what a call leaves behind: a refused one nothing, any other its reading and its sequence number. */
  lemma RefusalsExactly(g: Generator, ms: int)
    requires GeneratorSound(g)
    ensures var (g', r) := AfterNext(g, ms); var exhausted := ms == g.lastMs && g.sequence == 255;
      && (r == Err(BeforeEpoch) <==> ms < 0)
      && (r == Err(SequenceExhausted) <==> ms >= 0 && exhausted)
      && (r == Err(OutOfRange) <==> ms >= 0 && !exhausted && ms % 0x400_0000_0000 >= 0x200_0000_0000)
      && g' == (if ms < 0 || exhausted then g
                else Generator(g.shard, g.node, ms, if ms == g.lastMs then g.sequence + 1 else 0))
      && (r.Ok? ==> r.value == (((ms % 0x400_0000_0000) * 256 + g.node) * 256 + g'.sequence) * 64 + g.shard)
  {
    NextSucceedsWhen(g, ms);
    if ms >= 0 { WordKeepsLowTimeBits(ms, g.node, AfterNext(g, ms).0.sequence, g.shard); }
  }

  // ---- Any number of generators ----

  datatype Call = Call(generator: nat, ms: int)

  datatype Issued = Issued(generator: nat, ms: nat, sequence: nat, id: int)

  datatype World = World(generators: seq<Generator>, issued: seq<Issued>)

  function AfterCall(w: World, c: Call): World {
    if c.generator >= |w.generators| then w
    else
      var (g', r) := AfterNext(w.generators[c.generator], c.ms);
      World(w.generators[c.generator := g'],
            if r.Ok? then w.issued + [Issued(c.generator, g'.lastMs, g'.sequence, r.value)] else w.issued)
  }

  function Run(start: World, calls: seq<Call>): World {
    if calls == [] then start else AfterCall(Run(start, calls[..|calls| - 1]), calls[|calls| - 1])
  }

  predicate SamePlace(g: Generator, h: Generator) { g.shard == h.shard && g.node == h.node }

  /** Fresh generators, no two of them with the same shard and node. */
  predicate FreshStart(w: World) {
    && w.issued == []
    && (forall i :: 0 <= i < |w.generators| ==> GeneratorSound(w.generators[i]) && w.generators[i].lastMs == 0 && w.generators[i].sequence == 0)
    && (forall i, j :: 0 <= i < j < |w.generators| ==> !SamePlace(w.generators[i], w.generators[j]))
  }

  /** Each generator's clock never runs backwards and stays inside the time range. */
  predicate Clocked(calls: seq<Call>) {
    && (forall k :: 0 <= k < |calls| ==> calls[k].ms < TIME_RANGE)
    && (forall j, k :: 0 <= j < k < |calls| && calls[j].generator == calls[k].generator ==> calls[j].ms <= calls[k].ms)
  }

  predicate StampedBefore(a: Issued, ms: nat, sequence: nat) { a.ms < ms || (a.ms == ms && a.sequence <= sequence) }

  predicate IssuedSound(w: World, a: Issued) {
    && a.generator < |w.generators| && a.ms < TIME_RANGE / 2 && a.sequence < 256 && (a.ms > 0 || a.sequence > 0)
    && (var g := w.generators[a.generator];
        a.id == Pack(a.ms, g.node, a.sequence, g.shard) && StampedBefore(a, g.lastMs, g.sequence))
  }

  predicate Sound(w: World, start: World) {
    && |w.generators| == |start.generators|
    && (forall i :: 0 <= i < |w.generators| ==> GeneratorSound(w.generators[i]) && SamePlace(w.generators[i], start.generators[i]))
    && (forall k :: 0 <= k < |w.issued| ==> IssuedSound(w, w.issued[k]))
    && (forall j, k :: 0 <= j < k < |w.issued| && w.issued[j].generator == w.issued[k].generator ==>
          !(w.issued[j].ms == w.issued[k].ms && w.issued[j].sequence == w.issued[k].sequence))
  }

  /** No generator is ahead of the last call made to it. */
  predicate NotAhead(w: World, calls: seq<Call>) {
    forall i :: 0 <= i < |w.generators| && w.generators[i].lastMs > 0 ==>
      exists k :: 0 <= k < |calls| && calls[k].generator == i && calls[k].ms == w.generators[i].lastMs
  }

  lemma CallKeepsSound(w: World, start: World, c: Call)
    requires Sound(w, start) && c.ms < TIME_RANGE
    requires c.generator < |w.generators| ==> c.ms < 0 || w.generators[c.generator].lastMs <= c.ms
    ensures Sound(AfterCall(w, c), start)
  {
    var v := AfterCall(w, c);
    if c.generator < |w.generators| && c.ms >= 0 {
      var g := w.generators[c.generator];
      var (g', r) := AfterNext(g, c.ms);
      NextSucceedsWhen(g, c.ms);
      if r.Ok? { WordKeepsLowTimeBits(c.ms, g.node, g'.sequence, g.shard); }
      forall k | 0 <= k < |v.issued| ensures IssuedSound(v, v.issued[k]) {
        if k < |w.issued| { assert IssuedSound(w, w.issued[k]); }
      }
      forall k | 0 <= k < |w.issued| && r.Ok? && w.issued[k].generator == c.generator
        ensures !(w.issued[k].ms == g'.lastMs && w.issued[k].sequence == g'.sequence)
      {
        assert IssuedSound(w, w.issued[k]);
      }
    }
  }

  lemma {:induction false} RunIsSound(start: World, calls: seq<Call>)
    requires FreshStart(start) && Clocked(calls)
    ensures Sound(Run(start, calls), start) && NotAhead(Run(start, calls), calls)
  {
    if calls != [] {
      var front, c := calls[..|calls| - 1], calls[|calls| - 1];
      assert forall k :: 0 <= k < |front| ==> front[k] == calls[k];
      RunIsSound(start, front);
      var w := Run(start, front);
      if c.generator < |w.generators| && w.generators[c.generator].lastMs > 0 {
        var k :| 0 <= k < |front| && front[k].generator == c.generator && front[k].ms == w.generators[c.generator].lastMs;
        assert calls[k] == front[k];
      }
      CallKeepsSound(w, start, c);
      var v := Run(start, calls);
      forall i | 0 <= i < |v.generators| && v.generators[i].lastMs > 0
        ensures exists k :: 0 <= k < |calls| && calls[k].generator == i && calls[k].ms == v.generators[i].lastMs
      {
        if i == c.generator && v.generators[i].lastMs == c.ms {
          assert calls[|calls| - 1].generator == i;
        } else {
          var k :| 0 <= k < |front| && front[k].generator == i && front[k].ms == w.generators[i].lastMs;
          assert calls[k] == front[k];
        }
      }
    }
  }

  /**
   * Identifiers from any set of generators with distinct shard and node are positive and pairwise
   * distinct, over all runs in which each generator's clock never runs backwards.
   */
  lemma IdsAreDistinctAndPositive(start: World, calls: seq<Call>, j: nat, k: nat)
    requires FreshStart(start) && Clocked(calls) && j < k < |Run(start, calls).issued|
    ensures var issued := Run(start, calls).issued; issued[j].id != issued[k].id && issued[j].id > 0 && issued[k].id > 0
  {
    RunIsSound(start, calls);
    var w := Run(start, calls);
    var a, b := w.issued[j], w.issued[k];
    assert IssuedSound(w, a) && IssuedSound(w, b);
    var g, h := w.generators[a.generator], w.generators[b.generator];
    UnpackInvertsPack(a.ms, g.node, a.sequence, g.shard);
    UnpackInvertsPack(b.ms, h.node, b.sequence, h.shard);
    var x, y := start.generators[a.generator], start.generators[b.generator];
    assert SamePlace(g, x) && SamePlace(h, y);
    assert a.generator != b.generator ==> !SamePlace(x, y);
  }

  /** A clock that runs backwards can issue the same identifier twice. */
  lemma BackwardsClockRepeats()
    ensures var g0 := Generator(0, 0, 0, 0);
      var (g1, a) := AfterNext(g0, 1); var (g2, b) := AfterNext(g1, 2); var (g3, c) := AfterNext(g2, 1);
      a.Ok? && a == c
  {
  }

  /** So can a clock past the time range: the word forgets the high bits. */
  lemma ClockPastTheRangeRepeats()
    ensures var g0 := Generator(0, 0, 0, 0);
      var (g1, a) := AfterNext(g0, 1); var (g2, b) := AfterNext(g1, TIME_RANGE + 1); a.Ok? && a == b
  {
    WordKeepsLowTimeBits(1, 0, 0, 0);
    WordKeepsLowTimeBits(TIME_RANGE + 1, 0, 0, 0);
  }

  // ---- Exactly when one generator repeats itself ----

  /** The last reading that was not refused, and how many calls of its block came before. */
  function Track(readings: seq<int>): (nat, nat) {
    if readings == [] then (0, 0)
    else
      var (last, rank) := Track(readings[..|readings| - 1]);
      var t := readings[|readings| - 1];
      if t < 0 then (last, rank) else if t == last then (last, rank + 1) else (t, 0)
  }

  /** The place of call k in its block of equal readings. A new generator counts as having been called at 0. */
  function Rank(readings: seq<int>, k: nat): nat
    requires k < |readings|
  {
    Track(readings[..k + 1]).1
  }

  /** Known from the clock alone: whether call k returns an identifier. */
  predicate Issues(readings: seq<int>, k: nat)
    requires k < |readings|
  {
    readings[k] >= 0 && readings[k] % TIME_RANGE < TIME_RANGE / 2 && Rank(readings, k) <= 255
  }

  function StateAfter(g: Generator, readings: seq<int>): Generator {
    if readings == [] then g else AfterNext(StateAfter(g, readings[..|readings| - 1]), readings[|readings| - 1]).0
  }

  function ResultAt(g: Generator, readings: seq<int>, k: nat): Result<int, IdError>
    requires k < |readings|
  {
    AfterNext(StateAfter(g, readings[..k]), readings[k]).1
  }

  predicate Fresh(g: Generator) { GeneratorSound(g) && g.lastMs == 0 && g.sequence == 0 }

  lemma {:induction false} StateIsTracked(g: Generator, readings: seq<int>)
    requires Fresh(g)
    ensures var (last, rank) := Track(readings); StateAfter(g, readings) == g.(lastMs := last, sequence := Min(rank, 255))
  {
    if readings != [] { StateIsTracked(g, readings[..|readings| - 1]); }
  }

  lemma ResultIsKnown(g: Generator, readings: seq<int>, k: nat)
    requires Fresh(g) && k < |readings|
    ensures ResultAt(g, readings, k).Ok? <==> Issues(readings, k)
    ensures Issues(readings, k) ==>
      ResultAt(g, readings, k).value == Pack(readings[k] % TIME_RANGE, g.node, Rank(readings, k), g.shard)
  {
    StateIsTracked(g, readings[..k]);
    assert readings[..k + 1][..k] == readings[..k];
    var before := StateAfter(g, readings[..k]);
    NextSucceedsWhen(before, readings[k]);
    if Issues(readings, k) { WordKeepsLowTimeBits(readings[k], g.node, Rank(readings, k), g.shard); }
  }

  /** Another reading came between them, or they differ themselves. */
  predicate Separated(readings: seq<int>, j: nat, k: nat)
    requires j < k < |readings|
  {
    readings[k] != readings[j] || exists l :: j < l < k && readings[l] >= 0 && readings[l] != readings[j]
  }

  /** Calls of two blocks whose times the word cannot tell apart, at the same place of their blocks. */
  predicate Collide(readings: seq<int>, j: nat, k: nat)
    requires j < k < |readings|
  {
    && Issues(readings, j) && Issues(readings, k) && Separated(readings, j, k)
    && readings[j] % TIME_RANGE == readings[k] % TIME_RANGE && Rank(readings, j) == Rank(readings, k)
  }

  lemma {:induction false} BlockGoesOn(readings: seq<int>, j: nat, n: nat)
    requires j < n <= |readings| && readings[j] >= 0
    requires forall l :: j < l < n ==> readings[l] < 0 || readings[l] == readings[j]
    ensures Track(readings[..n]).0 == readings[j] && Track(readings[..n]).1 >= Rank(readings, j)
    decreases n
  {
    if n == j + 1 {
      assert readings[..n][..j] == readings[..j];
    } else {
      BlockGoesOn(readings, j, n - 1);
      assert readings[..n][..n - 1] == readings[..n - 1];
    }
  }

  lemma RanksRiseWithinABlock(readings: seq<int>, j: nat, k: nat)
    requires j < k < |readings| && readings[j] >= 0 && !Separated(readings, j, k)
    ensures Rank(readings, j) < Rank(readings, k)
  {
    BlockGoesOn(readings, j, k);
    assert readings[..k + 1][..k] == readings[..k];
  }

  lemma CollisionsAreExact(g: Generator, readings: seq<int>, j: nat, k: nat)
    requires Fresh(g) && j < k < |readings| && Issues(readings, j) && Issues(readings, k)
    ensures ResultAt(g, readings, j) == ResultAt(g, readings, k) <==> Collide(readings, j, k)
  {
    ResultIsKnown(g, readings, j);
    ResultIsKnown(g, readings, k);
    UnpackInvertsPack(readings[j] % TIME_RANGE, g.node, Rank(readings, j), g.shard);
    UnpackInvertsPack(readings[k] % TIME_RANGE, g.node, Rank(readings, k), g.shard);
    if !Separated(readings, j, k) { RanksRiseWithinABlock(readings, j, k); }
  }

  /**
   * Whatever its clock shows, a generator's identifiers are pairwise distinct if and only if no two
   * separated blocks of readings that agree modulo the time range issue a common sequence. Whether they do
   * is a matter of the readings alone.
   */
  lemma IdsAreDistinctExactly(g: Generator, readings: seq<int>)
    requires Fresh(g)
    ensures (forall j: nat, k: nat :: j < k < |readings| && ResultAt(g, readings, j).Ok? && ResultAt(g, readings, k).Ok? ==>
               ResultAt(g, readings, j) != ResultAt(g, readings, k))
       <==> (forall j: nat, k: nat :: j < k < |readings| ==> !Collide(readings, j, k))
  {
    forall j: nat, k: nat | j < k < |readings|
      ensures ResultAt(g, readings, j).Ok? && ResultAt(g, readings, k).Ok? && ResultAt(g, readings, j) == ResultAt(g, readings, k)
         <==> Collide(readings, j, k)
    {
      ResultIsKnown(g, readings, j);
      ResultIsKnown(g, readings, k);
      if Issues(readings, j) && Issues(readings, k) { CollisionsAreExact(g, readings, j, k); }
    }
  }

  /** Generators of different places never issue the same identifier, whatever their clocks show. */
  lemma PlacesKeepIdsApart(g: Generator, h: Generator, readings: seq<int>, others: seq<int>, j: nat, k: nat)
    requires Fresh(g) && Fresh(h) && !SamePlace(g, h) && j < |readings| && k < |others|
    requires ResultAt(g, readings, j).Ok? && ResultAt(h, others, k).Ok?
    ensures ResultAt(g, readings, j) != ResultAt(h, others, k)
  {
    ResultIsKnown(g, readings, j);
    ResultIsKnown(h, others, k);
    UnpackInvertsPack(readings[j] % TIME_RANGE, g.node, Rank(readings, j), g.shard);
    UnpackInvertsPack(others[k] % TIME_RANGE, h.node, Rank(others, k), h.shard);
  }

  /** A clock may run backwards and repeat nothing. */
  lemma BackwardsNeedNotRepeat()
    ensures forall j: nat, k: nat :: j < k < 3 ==> !Collide([3, 1, 2], j, k)
  {
  }

  // ---- The router ----

  /** The bitwise and of two naturals. */
  function And(a: nat, b: nat): nat {
    if a == 0 || b == 0 then 0 else 2 * And(a / 2, b / 2) + (a % 2) * (b % 2)
  }

  predicate PowerOfTwo(n: nat) { n == 1 || (n > 1 && n % 2 == 0 && PowerOfTwo(n / 2)) }

  lemma {:induction false} AndItself(n: nat)
    ensures And(n, n) == n
  {
    if n > 0 { AndItself(n / 2); }
  }

  /** The bit trick of the constructor: clearing the lowest bit leaves nothing exactly for powers of two. */
  lemma {:induction false} BitTrick(n: nat)
    requires n > 0
    ensures And(n, n - 1) == 0 <==> PowerOfTwo(n)
  {
    if n > 1 {
      if n % 2 == 0 {
        BitTrick(n / 2);
        assert (n - 1) / 2 == n / 2 - 1;
      } else {
        AndItself(n / 2);
        assert (n - 1) / 2 == n / 2;
      }
    }
  }

  lemma {:induction false} PowersDivide(n: nat, m: nat)
    requires PowerOfTwo(n) && PowerOfTwo(m) && n <= m
    ensures m % n == 0
  {
    if n > 1 {
      PowersDivide(n / 2, m / 2);
      var q := (m / 2) / (n / 2);
      assert m / 2 == q * (n / 2);
      assert m == q * n;
      ModOfSum(q, n, 0);
    }
  }

  lemma {:induction false} DivisorsOfPowers(n: nat, m: nat)
    requires n > 0 && PowerOfTwo(m) && m % n == 0
    ensures PowerOfTwo(n)
    decreases m
  {
    var q := m / n;
    assert m == q * n;
    if m == 1 {
    } else if n % 2 == 0 {
      assert m / 2 == q * (n / 2);
      ModOfSum(q, n / 2, 0);
      DivisorsOfPowers(n / 2, m / 2);
    } else {
      EvenProduct(q, n);
      assert m / 2 == (q / 2) * n;
      ModOfSum(q / 2, n, 0);
      DivisorsOfPowers(n, m / 2);
    }
  }

  lemma EvenProduct(q: nat, n: nat)
    requires n % 2 == 1 && (q * n) % 2 == 0
    ensures q % 2 == 0 && q * n / 2 == (q / 2) * n
  {
    assert n == 2 * (n / 2) + 1;
    assert q * n == 2 * (q * (n / 2)) + q;
    assert q == 2 * (q / 2);
    assert q * n == 2 * ((q / 2) * n);
  }

  /** Every identifier of every shard, present or future, routes back to the shard it names. */
  ghost predicate RoutesHome(count: nat)
    requires count > 0
  {
    forall rest: nat, shard: nat :: shard < count && shard < 64 ==> HomeOf(rest, shard, count) == shard
  }

  function HomeOf(rest: nat, shard: nat, count: nat): nat
    requires count > 0
  {
    (rest * 64 + shard) % count
  }

  /** The shard counts the router accepts are exactly those, up to 64, for which routing and naming agree. */
  lemma AcceptedCountsRouteHome(count: nat)
    requires 1 <= count <= 64
    ensures RoutesHome(count) <==> And(count, count - 1) == 0
  {
    BitTrick(count);
    assert PowerOfTwo(64);
    if PowerOfTwo(count) {
      PowersDivide(count, 64);
      var q := 64 / count;
      assert 64 == q * count;
      forall rest: nat, shard: nat | shard < count && shard < 64 ensures HomeOf(rest, shard, count) == shard {
        assert rest * 64 == (rest * q) * count;
        ModOfSum(rest * q, count, shard);
      }
    }
    if RoutesHome(count) {
      assert HomeOf(1, 0, count) == 0;
      DivisorsOfPowers(count, 64);
    }
  }

  type Name = int

  datatype RouterError = NotConfigured | NoShards | UnsupportedCount | EmptyName | DuplicateName | InvalidUser

  predicate Ascending(names: seq<Name>) { forall i, j :: 0 <= i < j < |names| ==> names[i] < names[j] }

  predicate AllNamed(raw: seq<Option<Name>>) { forall i :: 0 <= i < |raw| ==> raw[i].Some? }

  predicate NoRepeats(raw: seq<Option<Name>>) { forall i, j :: 0 <= i < j < |raw| && raw[i].Some? ==> raw[i] != raw[j] }

  /** The routing table holds these names, in ascending order. */
  ghost predicate TableFor(shards: seq<Name>, raw: seq<Option<Name>>) {
    && Ascending(shards) && |shards| == |raw|
    && (forall x :: x in shards <==> Some(x) in raw)
  }

  function Names(a: seq<Name>): set<Name> { set x | x in a }

  /** The largest name is the last, and the others come before it. */
  lemma LastIsLargest(a: seq<Name>)
    requires Ascending(a) && a != []
    ensures var last := a[|a| - 1];
      last in Names(a) && (forall x :: x in Names(a) ==> x <= last) && Names(a[..|a| - 1]) == Names(a) - {last}
  {
    var front, last := a[..|a| - 1], a[|a| - 1];
    assert a == front + [last];
    forall x | x in front ensures x < last {
      var i :| 0 <= i < |front| && front[i] == x;
      assert a[i] == x;
    }
  }

  lemma NoNames(a: seq<Name>)
    ensures Names(a) == {} <==> a == []
  {
    if a != [] { assert a[0] in Names(a); }
  }

  lemma {:induction false} OneTableForASet(a: seq<Name>, b: seq<Name>)
    requires Ascending(a) && Ascending(b) && Names(a) == Names(b)
    ensures a == b
    decreases |a|
  {
    NoNames(a);
    NoNames(b);
    if a != [] {
      LastIsLargest(a);
      LastIsLargest(b);
      OneTableForASet(a[..|a| - 1], b[..|b| - 1]);
      assert a == a[..|a| - 1] + [a[|a| - 1]] && b == b[..|b| - 1] + [b[|b| - 1]];
    }
  }

  /** Configuration order does not matter: equal sets of names give equal tables. */
  lemma TableIsUnique(a: seq<Name>, b: seq<Name>)
    requires Ascending(a) && Ascending(b) && forall x :: x in a <==> x in b
    ensures a == b
  {
    forall x ensures x in Names(a) <==> x in Names(b) { assert x in a <==> x in b; }
    OneTableForASet(a, b);
  }

  class Router {
    var shards: seq<Name>

    constructor ()
      ensures shards == []
    {
      shards := [];
    }

    /**
     * Validates and freezes the order of the shards; None stands for a name that is blank. Accepts
     * exactly the named, unrepeated lists of a supported length.
     */
    method Configure(raw: seq<Option<Name>>) returns (r: Result<(), RouterError>)
      modifies this
      ensures r.Ok? <==> 1 <= |raw| <= 64 && And(|raw|, |raw| - 1) == 0 && AllNamed(raw) && NoRepeats(raw)
      ensures r.Ok? ==> TableFor(shards, raw)
      ensures r.Err? ==> shards == old(shards)
    {
      if |raw| < 1 {
        return Err(NoShards);
      }
      if |raw| > MAX_SHARD + 1 || And(|raw|, |raw| - 1) != 0 {
        return Err(UnsupportedCount);
      }
      var normalized: seq<Name> := [];
      var k := 0;
      while k < |raw|
        invariant 0 <= k <= |raw|
        invariant TableFor(normalized, raw[..k])
        invariant AllNamed(raw[..k]) && NoRepeats(raw[..k])
        invariant shards == old(shards)
      {
        if raw[k].None? {
          return Err(EmptyName);
        }
        var name := raw[k].value;
        if name in normalized {
          assert Some(name) in raw[..k];
          return Err(DuplicateName);
        }
        assert raw[..k + 1] == raw[..k] + [raw[k]];
        normalized := InsertSorted(normalized, name);
        k := k + 1;
      }
      assert raw[..k] == raw;
      shards := normalized;
      return Ok(());
    }

    lemma InsertedIsSorted(names: seq<Name>, x: Name, at: nat, r: seq<Name>)
      requires Ascending(names) && x !in names && at <= |names| && r == names[..at] + [x] + names[at..]
      requires forall j :: 0 <= j < at ==> names[j] < x
      requires at < |names| ==> names[at] >= x
      ensures Ascending(r) && forall y :: y in r <==> y in names || y == x
    {
      assert at < |names| ==> names[at] in names;
      forall i, j | 0 <= i < j < |r| ensures r[i] < r[j] {
        assert forall k :: 0 <= k < |r| ==> r[k] == if k < at then names[k] else if k == at then x else names[k - 1];
      }
      assert names == names[..at] + names[at..];
    }

    method InsertSorted(names: seq<Name>, x: Name) returns (r: seq<Name>)
      requires Ascending(names) && x !in names
      ensures Ascending(r) && |r| == |names| + 1 && forall y :: y in r <==> y in names || y == x
    {
      var at := 0;
      while at < |names| && names[at] < x
        invariant 0 <= at <= |names|
        invariant forall j :: 0 <= j < at ==> names[j] < x
      {
        at := at + 1;
      }
      r := names[..at] + [x] + names[at..];
      InsertedIsSorted(names, x, at, r);
    }

    method ShardForUserID(user: int) returns (r: Result<nat, RouterError>)
      ensures r.Ok? <==> shards != [] && user > 0
      ensures r.Ok? ==> r.value == user % |shards| < |shards|
      ensures r.Err? ==> r.error == if shards == [] then NotConfigured else InvalidUser
    {
      if shards == [] {
        return Err(NotConfigured);
      }
      if user <= 0 {
        return Err(InvalidUser);
      }
      return Ok(user % |shards|);
    }
  }

  /** What a generator of shard index s issues, a configured router of more than s shards routes to s. */
  lemma IssuedIdsRouteHome(start: World, calls: seq<Call>, k: nat, count: nat)
    requires FreshStart(start) && Clocked(calls) && k < |Run(start, calls).issued|
    requires 1 <= count <= 64 && And(count, count - 1) == 0
    requires Run(start, calls).issued[k].generator < |start.generators|
    requires start.generators[Run(start, calls).issued[k].generator].shard < count
    ensures var a := Run(start, calls).issued[k]; a.id % count == start.generators[a.generator].shard
  {
    RunIsSound(start, calls);
    var w := Run(start, calls);
    var a := w.issued[k];
    assert IssuedSound(w, a);
    var g := w.generators[a.generator];
    AcceptedCountsRouteHome(count);
    var rest := (a.ms * 256 + g.node) * 256 + a.sequence;
    assert HomeOf(rest, g.shard, count) == g.shard;
    assert SamePlace(g, start.generators[a.generator]);
  }
}
