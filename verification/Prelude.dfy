/** Shared value types and sums over finite maps. */
module Prelude {

  datatype Option<+T> = None | Some(value: T)

  datatype Result<+T, +E> = Ok(value: T) | Err(error: E)

  function Min(a: int, b: int): int { if a <= b then a else b }

  const MAX_INT64: int := 0x7fff_ffff_ffff_ffff
  const MIN_INT64: int := -0x8000_0000_0000_0000

  predicate InInt64(x: int) { MIN_INT64 <= x <= MAX_INT64 }

  /** Two's complement wrap-around of Go's int64 arithmetic. */
  function Wrap64(x: int): (w: int)
    ensures InInt64(x) ==> w == x
    ensures InInt64(w)
  {
    var r := x % 0x1_0000_0000_0000_0000;
    if r <= MAX_INT64 then r else r - 0x1_0000_0000_0000_0000
  }

  /** Some element of a set: the iteration order of Go's maps is arbitrary. */
  method Pick<T>(s: set<T>) returns (x: T)
    requires s != {}
    ensures x in s
  {
    x :| x in s;
  }

  lemma SomeElement<T>(s: set<T>) returns (x: T)
    requires s != {}
    ensures x in s
  {
    x :| x in s;
  }

  /** The sum of f over the entries of a finite map. */
  ghost function MapSum<K, V>(m: map<K, V>, f: (K, V) -> int): int {
    if m == map[] then 0
    else
      var k :| k in m;
      f(k, m[k]) + MapSum(m - {k}, f)
  }

  lemma {:induction false} MapSumSplit<K, V>(m: map<K, V>, f: (K, V) -> int, k: K)
    requires k in m
    ensures MapSum(m, f) == f(k, m[k]) + MapSum(m - {k}, f)
    decreases |m|
  {
    var x :| x in m && MapSum(m, f) == f(x, m[x]) + MapSum(m - {x}, f);
    if x != k {
      MapSumSplit(m - {x}, f, k);
      MapSumSplit(m - {k}, f, x);
      assert m - {x} - {k} == m - {k} - {x};
    }
  }

  lemma MapSumUpdate<K, V>(m: map<K, V>, f: (K, V) -> int, k: K, v: V)
    ensures MapSum(m[k := v], f) == MapSum(m, f) + f(k, v) - (if k in m then f(k, m[k]) else 0)
  {
    MapSumSplit(m[k := v], f, k);
    assert m[k := v] - {k} == m - {k};
    if k in m {
      MapSumSplit(m, f, k);
    } else {
      assert m - {k} == m;
    }
  }

  lemma {:induction false} MapSumSame<K, V>(m: map<K, V>, f: (K, V) -> int, g: (K, V) -> int)
    requires forall k :: k in m ==> f(k, m[k]) == g(k, m[k])
    ensures MapSum(m, f) == MapSum(m, g)
    decreases |m|
  {
    if m != map[] {
      var x :| x in m && MapSum(m, f) == f(x, m[x]) + MapSum(m - {x}, f);
      MapSumSame(m - {x}, f, g);
      MapSumSplit(m, g, x);
    }
  }

  /** Two maps with the same keys and pointwise equal contributions have the same sum. */
  lemma {:induction false} MapSumPointwise<K, V>(m: map<K, V>, n: map<K, V>, f: (K, V) -> int)
    requires m.Keys == n.Keys && forall k :: k in m ==> f(k, m[k]) == f(k, n[k])
    ensures MapSum(m, f) == MapSum(n, f)
    decreases |m|
  {
    if m != map[] {
      var x :| x in m && MapSum(m, f) == f(x, m[x]) + MapSum(m - {x}, f);
      MapSumPointwise(m - {x}, n - {x}, f);
      MapSumSplit(n, f, x);
    } else {
      assert n.Keys == {};
      assert n == map[];
    }
  }

  /** Changing the summand at one key changes the sum by that much. */
  lemma MapSumOneKey<K, V>(m: map<K, V>, f: (K, V) -> int, g: (K, V) -> int, x: K)
    requires x in m && forall k :: k in m && k != x ==> f(k, m[k]) == g(k, m[k])
    ensures MapSum(m, g) == MapSum(m, f) - f(x, m[x]) + g(x, m[x])
  {
    MapSumSplit(m, f, x);
    MapSumSplit(m, g, x);
    MapSumSame(m - {x}, f, g);
  }

  lemma {:induction false} MapSumNonNegative<K, V>(m: map<K, V>, f: (K, V) -> int)
    requires forall k :: k in m ==> f(k, m[k]) >= 0
    ensures MapSum(m, f) >= 0
    decreases |m|
  {
    if m != map[] {
      var x :| x in m && MapSum(m, f) == f(x, m[x]) + MapSum(m - {x}, f);
      MapSumNonNegative(m - {x}, f);
    }
  }

  lemma {:induction false} MapSumZero<K, V>(m: map<K, V>, f: (K, V) -> int)
    requires forall k :: k in m ==> f(k, m[k]) == 0
    ensures MapSum(m, f) == 0
    decreases |m|
  {
    if m != map[] {
      var x :| x in m && MapSum(m, f) == f(x, m[x]) + MapSum(m - {x}, f);
      MapSumZero(m - {x}, f);
    }
  }

  /** The sum of f over a sequence. */
  ghost function SeqSum<T>(s: seq<T>, f: T -> int): int {
    if s == [] then 0 else f(s[0]) + SeqSum(s[1..], f)
  }

  lemma {:induction false} SeqSumUpdate<T>(s: seq<T>, f: T -> int, i: nat, x: T)
    requires i < |s|
    ensures SeqSum(s[i := x], f) == SeqSum(s, f) - f(s[i]) + f(x)
  {
    if i > 0 {
      assert s[i := x][1..] == s[1..][i - 1 := x];
      SeqSumUpdate(s[1..], f, i - 1, x);
    } else {
      assert s[i := x][1..] == s[1..];
    }
  }

  lemma {:induction false} SeqSumSame<T>(s: seq<T>, t: seq<T>, f: T -> int, g: T -> int)
    requires |s| == |t| && forall i :: 0 <= i < |s| ==> f(s[i]) == g(t[i])
    ensures SeqSum(s, f) == SeqSum(t, g)
  {
    if s != [] {
      assert f(s[0]) == g(t[0]);
      SeqSumSame(s[1..], t[1..], f, g);
    }
  }

  /** Changing the summand at one index changes the sum by that much. */
  lemma {:induction false} SeqSumOneIndex<T>(s: seq<T>, f: T -> int, g: T -> int, i: nat)
    requires i < |s| && forall k :: 0 <= k < |s| && k != i ==> f(s[k]) == g(s[k])
    ensures SeqSum(s, g) == SeqSum(s, f) - f(s[i]) + g(s[i])
  {
    if i == 0 {
      SeqSumSame(s[1..], s[1..], f, g);
    } else {
      assert f(s[0]) == g(s[0]);
      SeqSumOneIndex(s[1..], f, g, i - 1);
    }
  }

  lemma {:induction false} SeqSumZero<T>(s: seq<T>, f: T -> int)
    requires forall i :: 0 <= i < |s| ==> f(s[i]) == 0
    ensures SeqSum(s, f) == 0
  {
    if s != [] {
      assert f(s[0]) == 0;
      SeqSumZero(s[1..], f);
    }
  }

  lemma {:induction false} SeqSumAppend<T>(s: seq<T>, t: seq<T>, f: T -> int)
    ensures SeqSum(s + t, f) == SeqSum(s, f) + SeqSum(t, f)
  {
    if s == [] {
      assert s + t == t;
    } else {
      assert (s + t)[1..] == s[1..] + t;
      SeqSumAppend(s[1..], t, f);
    }
  }
}
