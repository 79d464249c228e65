/** The sharded token-bucket limiter with eviction, against one plain bucket per key. */
module Limiter {
  import opened Prelude

  /** Seconds. */
  type Time = real

  datatype Bucket = Bucket(tokens: real, updated: Time, seen: Time)

  datatype Params = Params(rate: real, burst: real, ttl: real)

  predicate ValidParams(p: Params) { p.rate > 0.0 && p.burst >= 1.0 && p.ttl > 0.0 }

  /** Defaults for values no limiter can work with. */
  function Normalized(p: Params): (q: Params)
    ensures ValidParams(q)
    ensures ValidParams(p) ==> q == p
  {
    Params(if p.rate <= 0.0 then 1.0 else p.rate, if p.burst < 1.0 then 1.0 else p.burst, if p.ttl <= 0.0 then 600.0 else p.ttl)
  }

  // ---- One key ----

  function Inflow(rate: real, span: Time): real { span * rate }

  /** Tokens at hand at a time: a key without a bucket has a full one. */
  function Level(p: Params, b: Option<Bucket>, now: Time): real {
    if b.None? then p.burst
    else
      var tokens := b.value.tokens + Inflow(p.rate, now - b.value.updated);
      if tokens > p.burst then p.burst else tokens
  }

  predicate Allows(p: Params, b: Option<Bucket>, now: Time) { Level(p, b, now) >= 1.0 }

  function AfterCall(p: Params, b: Option<Bucket>, now: Time): Bucket {
    var level := Level(p, b, now);
    Bucket(if level < 1.0 then level else level - 1.0, now, now)
  }

  predicate Idle(p: Params, b: Bucket, now: Time) { b.seen < now - p.ttl }

  function Evicted(p: Params, b: Option<Bucket>, now: Time): Option<Bucket> {
    if b.Some? && Idle(p, b.value, now) then None else b
  }

  /** Values no limiter can work with become a token a second, one token, and ten minutes. */
  lemma DefaultsExactly(p: Params)
    ensures var q := Normalized(p);
      && q.rate == (if p.rate > 0.0 then p.rate else 1.0)
      && q.burst == (if p.burst >= 1.0 then p.burst else 1.0)
      && q.ttl == (if p.ttl > 0.0 then p.ttl else 600.0)
  {
  }

  /**
   * A call finds what was left and what has flowed in since, capped at the burst, or the whole burst under a
   * new key; it is allowed if and only if that is a whole token, which it then takes, and is remembered with
   * its reading either way. A cleanup takes exactly the buckets last called for more than the ttl ago.
   */
  lemma CallsExactly(p: Params, b: Option<Bucket>, now: Time)
    ensures var flowed := if b.Some? then b.value.tokens + (now - b.value.updated) * p.rate else p.burst;
      var level := if flowed <= p.burst then flowed else p.burst;
      && (Allows(p, b, now) <==> 1.0 <= level)
      && AfterCall(p, b, now) == Bucket(if 1.0 <= level then level - 1.0 else level, now, now)
    ensures Evicted(p, b, now) == if b.Some? && now - b.value.seen > p.ttl then None else b
  {
  }

  /** Whoever waits until a token has flowed in is allowed. */
  lemma PatientCallsAreAllowed(p: Params, b: Bucket, now: Time)
    requires ValidParams(p) && b.tokens >= 0.0 && Inflow(p.rate, now - b.updated) >= 1.0
    ensures Allows(p, Some(b), now)
  {
  }

  predicate BucketSound(p: Params, b: Bucket) { 0.0 <= b.tokens <= p.burst && b.seen == b.updated }

  /** No eviction is ever visible, at any later time. */
  ghost predicate EvictionInvisible(p: Params) {
    forall b: Bucket, at: Time, now: Time :: BucketSound(p, b) && Idle(p, b, at) && at <= now ==>
      Level(p, Some(b), now) == Level(p, Evicted(p, Some(b), at), now)
  }

  /** Eviction is invisible exactly when an idle bucket has had the time to fill up. */
  lemma EvictionIsInvisibleWhenIdleMeansFull(p: Params)
    requires ValidParams(p)
    ensures EvictionInvisible(p) <==> p.rate * p.ttl >= p.burst
  {
    if p.rate * p.ttl >= p.burst {
      forall b: Bucket, at: Time, now: Time | BucketSound(p, b) && Idle(p, b, at) && at <= now
        ensures Level(p, Some(b), now) == Level(p, Evicted(p, Some(b), at), now)
      {
        InflowGrows(p.rate, 0.0, 0.0);
        FillsUp(p, b, now, 0.0);
      }
    } else {
      var full := p.burst / p.rate;
      ScaleBack(p.burst, p.rate);
      var at := (p.ttl + full) / 2.0;
      HalfWay(p.rate, p.ttl, full);
      var b := Bucket(0.0, 0.0, 0.0);
      assert BucketSound(p, b) && Idle(p, b, at);
      assert Inflow(p.rate, at - 0.0) == at * p.rate;
      assert Level(p, Some(b), at) < p.burst;
    }
  }

  /** A debt of at most what flows in during skew is paid, and the bucket full, ttl - skew after the last call. */
  lemma FillsUp(p: Params, b: Bucket, now: Time, skew: Time)
    requires ValidParams(p) && skew >= 0.0 && b.tokens >= -Inflow(p.rate, skew) && b.seen == b.updated
    requires Inflow(p.rate, p.ttl - skew - skew) >= p.burst && now - b.seen >= p.ttl - skew
    ensures Level(p, Some(b), now) == p.burst
  {
    InflowGrows(p.rate, p.ttl - skew, now - b.updated);
    InflowAdds(p.rate, p.ttl - skew - skew, skew);
  }

  lemma InflowGrows(rate: real, short: Time, long: Time)
    requires short <= long && rate > 0.0
    ensures Inflow(rate, short) <= Inflow(rate, long)
    ensures Inflow(rate, 0.0) == 0.0
  {
  }

  lemma InflowAdds(rate: real, first: Time, second: Time)
    ensures Inflow(rate, first) + Inflow(rate, second) == Inflow(rate, first + second)
  {
  }

  lemma ScaleBack(burst: real, rate: real)
    requires rate > 0.0
    ensures burst / rate * rate == burst
  {
  }

  lemma HalfWay(rate: real, ttl: real, full: real)
    requires rate > 0.0 && rate * ttl < full * rate
    ensures ttl < (ttl + full) / 2.0 && (ttl + full) / 2.0 * rate < full * rate
  {
    if full <= ttl { InflowGrows(rate, full, ttl); }
  }

  // ---- Runs of one key ----

  datatype Event = Call(at: Time) | Cleanup(at: Time)

  /**
   * Calls read the clock before they take the lock, so they can take effect out of order: after an event
   * with one reading none takes effect whose reading is more than skew older.
   */
  ghost predicate Skewed(events: seq<Event>, peak: Time, skew: Time) {
    && (forall i :: 0 <= i < |events| ==> peak - skew <= events[i].at)
    && (forall i, j :: 0 <= i < j < |events| ==> events[i].at - skew <= events[j].at)
  }

  function Later(a: Time, b: Time): Time { if a <= b then b else a }

  /** The latest reading so far. */
  function Peak(events: seq<Event>, from: Time): Time {
    if events == [] then from else Later(Peak(events[..|events| - 1], from), events[|events| - 1].at)
  }

  function AfterEvents(p: Params, b: Option<Bucket>, events: seq<Event>, evicts: bool): Option<Bucket> {
    if events == [] then b
    else
      var before := AfterEvents(p, b, events[..|events| - 1], evicts);
      match events[|events| - 1]
      case Call(at) => Some(AfterCall(p, before, at))
      case Cleanup(at) => if evicts then Evicted(p, before, at) else before
  }

  /** The answers to the calls, in order. */
  function Answers(p: Params, b: Option<Bucket>, events: seq<Event>, evicts: bool): seq<bool> {
    if events == [] then []
    else
      var front, e := events[..|events| - 1], events[|events| - 1];
      Answers(p, b, front, evicts) + if e.Call? then [Allows(p, AfterEvents(p, b, front, evicts), e.at)] else []
  }

  function CountTrue(answers: seq<bool>): nat {
    if answers == [] then 0 else CountTrue(answers[..|answers| - 1]) + if answers[|answers| - 1] then 1 else 0
  }

  /** The evicting bucket is the plain one, or gone after the plain one was idle for the ttl. */
  ghost predicate Simulates(p: Params, evicting: Option<Bucket>, plain: Option<Bucket>, peak: Time) {
    evicting == plain || (evicting.None? && plain.Some? && peak - plain.value.seen >= p.ttl)
  }

  /** No bucket holds more than the burst; late readings can leave a debt, of what flows in during skew at most. */
  ghost predicate Sound(p: Params, b: Option<Bucket>, peak: Time, skew: Time) {
    b.Some? ==>
      && b.value.tokens <= p.burst && b.value.seen == b.value.updated <= peak
      && b.value.tokens >= Inflow(p.rate, b.value.updated - peak)
      && b.value.tokens >= -Inflow(p.rate, skew)
  }

  lemma {:induction false} PeakIsSomeReading(events: seq<Event>, from: Time)
    ensures Peak(events, from) == from || exists i :: 0 <= i < |events| && Peak(events, from) == events[i].at
  {
    if events != [] {
      var front := events[..|events| - 1];
      PeakIsSomeReading(front, from);
      if Peak(events, from) == events[|events| - 1].at {
      } else if Peak(front, from) != from {
        var i :| 0 <= i < |front| && Peak(front, from) == front[i].at;
        assert events[i] == front[i];
      }
    }
  }

  lemma SkewedPrefix(events: seq<Event>, peak: Time, skew: Time)
    requires Skewed(events, peak, skew) && events != []
    ensures var front := events[..|events| - 1];
      Skewed(front, peak, skew) && Peak(front, peak) - skew <= events[|events| - 1].at
  {
    var front := events[..|events| - 1];
    PeakIsSomeReading(front, peak);
    if Peak(front, peak) != peak {
      var i :| 0 <= i < |front| && Peak(front, peak) == front[i].at;
      assert events[i].at - skew <= events[|events| - 1].at;
    }
  }

  lemma CallStaysSound(p: Params, b: Option<Bucket>, peak: Time, skew: Time, at: Time)
    requires ValidParams(p) && skew >= 0.0 && Sound(p, b, peak, skew) && peak - skew <= at
    ensures Sound(p, Some(AfterCall(p, b, at)), Later(peak, at), skew)
  {
    InflowGrows(p.rate, -skew, at - Later(peak, at));
    InflowGrows(p.rate, at - Later(peak, at), 0.0);
    assert Inflow(p.rate, -skew) == -Inflow(p.rate, skew);
    if b.Some? {
      InflowAdds(p.rate, b.value.updated - peak, at - b.value.updated);
      InflowGrows(p.rate, at - Later(peak, at), at - peak);
    }
  }

  lemma LaterPeakStaysSound(p: Params, b: Option<Bucket>, peak: Time, skew: Time, later: Time)
    requires ValidParams(p) && Sound(p, b, peak, skew) && peak <= later
    ensures Sound(p, b, later, skew)
  {
    if b.Some? { InflowGrows(p.rate, b.value.updated - later, b.value.updated - peak); }
  }

  lemma {:induction false} EventsStaySound(p: Params, b: Option<Bucket>, events: seq<Event>, evicts: bool, peak: Time, skew: Time)
    requires ValidParams(p) && skew >= 0.0 && Sound(p, b, peak, skew) && Skewed(events, peak, skew)
    ensures Sound(p, AfterEvents(p, b, events, evicts), Peak(events, peak), skew)
  {
    if events != [] {
      SkewedPrefix(events, peak, skew);
      var front, e := events[..|events| - 1], events[|events| - 1];
      EventsStaySound(p, b, front, evicts, peak, skew);
      var before := AfterEvents(p, b, front, evicts);
      if e.Call? {
        CallStaysSound(p, before, Peak(front, peak), skew, e.at);
      } else {
        LaterPeakStaysSound(p, before, Peak(front, peak), skew, Later(Peak(front, peak), e.at));
      }
    }
  }

  /**
   * While readings are at most skew out of order, and the ttl less twice the skew lets the burst flow in:
   * the limiter with its cleanups gives every call the answer that a plain bucket kept forever would give.
   */
  lemma {:induction false} CleanupRefinesPlainBucket(p: Params, b: Option<Bucket>, events: seq<Event>, peak: Time, skew: Time)
    requires ValidParams(p) && skew >= 0.0 && Inflow(p.rate, p.ttl - skew - skew) >= p.burst
    requires Sound(p, b, peak, skew) && Skewed(events, peak, skew)
    ensures Answers(p, b, events, true) == Answers(p, b, events, false)
    ensures Simulates(p, AfterEvents(p, b, events, true), AfterEvents(p, b, events, false), Peak(events, peak))
  {
    if events != [] {
      var front, e := events[..|events| - 1], events[|events| - 1];
      SkewedPrefix(events, peak, skew);
      CleanupRefinesPlainBucket(p, b, front, peak, skew);
      EventsStaySound(p, b, front, false, peak, skew);
      var evicting, plain := AfterEvents(p, b, front, true), AfterEvents(p, b, front, false);
      if evicting != plain && e.Call? { FillsUp(p, plain.value, e.at, skew); }
    }
  }

  /** One late reading is enough for an eviction to show: the plain bucket is empty then, the evicted one full. */
  lemma LateReadingSeesAnEviction()
    ensures var p := Params(1.0, 1.0, 1.0); var events := [Call(10.0), Cleanup(11.5), Call(10.0)];
      ValidParams(p) && p.rate * p.ttl >= p.burst && Skewed(events, 10.0, 1.5)
      && Answers(p, None, events, true) == [true, true] && Answers(p, None, events, false) == [true, false]
  {
    var p := Params(1.0, 1.0, 1.0);
    var e1, e2, e3 := Call(10.0), Cleanup(11.5), Call(10.0);
    assert [e1, e2, e3][..2] == [e1, e2] && [e1, e2][..1] == [e1] && [e1][..0] == [];
    assert Inflow(1.0, 0.0) == 0.0;
    assert AfterEvents(p, None, [e1], true) == AfterEvents(p, None, [e1], false) == Some(Bucket(0.0, 10.0, 10.0));
    assert AfterEvents(p, None, [e1, e2], true) == None;
    assert AfterEvents(p, None, [e1, e2], false) == Some(Bucket(0.0, 10.0, 10.0));
    assert Answers(p, None, [e1], true) == Answers(p, None, [e1], false) == [true];
    assert Answers(p, None, [e1, e2], true) == Answers(p, None, [e1, e2], false) == [true];
  }

  // ---- and no smaller ttl will do ----

  lemma LastAnswer(p: Params, b: Option<Bucket>, events: seq<Event>, evicts: bool)
    requires events != [] && events[|events| - 1].Call?
    ensures var front := events[..|events| - 1]; var answers := Answers(p, b, events, evicts);
      answers != [] && answers[|answers| - 1] == Allows(p, AfterEvents(p, b, front, evicts), events[|events| - 1].at)
  {
  }

  function Calls(at: Time, n: nat): seq<Event> { if n == 0 then [] else Calls(at, n - 1) + [Call(at)] }

  lemma {:induction false} CallsAre(at: Time, n: nat)
    ensures |Calls(at, n)| == n && forall i :: 0 <= i < n ==> Calls(at, n)[i] == Call(at)
  {
    if n > 0 { CallsAre(at, n - 1); }
  }

  lemma {:induction false} AfterBoth(p: Params, b: Option<Bucket>, first: seq<Event>, second: seq<Event>, evicts: bool)
    ensures AfterEvents(p, b, first + second, evicts) == AfterEvents(p, AfterEvents(p, b, first, evicts), second, evicts)
  {
    if second == [] {
      assert first + second == first;
    } else {
      assert (first + second)[..|first + second| - 1] == first + second[..|second| - 1];
      AfterBoth(p, b, first, second[..|second| - 1], evicts);
    }
  }

  lemma TokenTaken(p: Params, tokens: real, at: Time)
    requires 1.0 <= tokens <= p.burst
    ensures AfterCall(p, Some(Bucket(tokens, at, at)), at) == Bucket(tokens - 1.0, at, at)
  {
    assert Inflow(p.rate, at - at) == 0.0;
  }

  /** A full bucket gives one token for each of its first calls at one time. */
  lemma {:induction false} Drains(p: Params, at: Time, n: nat, evicts: bool)
    requires ValidParams(p) && n as real <= p.burst
    ensures var after := AfterEvents(p, None, Calls(at, n), evicts);
      if n == 0 then after == None else after == Some(Bucket(p.burst - n as real, at, at))
  {
    if n > 0 {
      Drains(p, at, n - 1, evicts);
      CallsAre(at, n);
      assert Calls(at, n)[..n - 1] == Calls(at, n - 1) by { CallsAre(at, n - 1); }
      assert (n - 1) as real + 1.0 == n as real;
      if n > 1 { TokenTaken(p, p.burst - (n - 1) as real, at); }
    }
  }

  lemma CallAgain(p: Params, b: Option<Bucket>, at: Time)
    requires ValidParams(p)
    ensures var level := Level(p, b, at); Level(p, Some(AfterCall(p, b, at)), at) == if level >= 1.0 then level - 1.0 else level
  {
    assert Inflow(p.rate, at - at) == 0.0;
  }

  /** With less than so many tokens, so many calls at one time are not all allowed: they run out before the last. */
  lemma {:induction false} RunsOut(p: Params, b: Bucket, at: Time, n: nat, k: nat)
    requires ValidParams(p) && k < n && Level(p, Some(b), at) < n as real
    ensures Level(p, AfterEvents(p, Some(b), Calls(at, k), false), at) < (n - k) as real
  {
    if k > 0 {
      RunsOut(p, b, at, n, k - 1);
      assert Calls(at, k)[..k - 1] == Calls(at, k - 1) by { CallsAre(at, k - 1); }
      CallsAre(at, k);
      CallAgain(p, AfterEvents(p, Some(b), Calls(at, k - 1), false), at);
      assert (n - (k - 1)) as real == (n - k) as real + 1.0;
    }
  }

  /** The burst is spent at one time; one call with an older reading leaves a debt; a cleanup; the burst again. */
  function LateRun(skew: Time, cleanup: Time, last: Time, n: nat): seq<Event> {
    Calls(0.0, n) + [Call(-skew), Cleanup(cleanup)] + Calls(last, n)
  }

  lemma LateRunIsSkewed(skew: Time, cleanup: Time, last: Time, n: nat)
    requires skew >= 0.0 && cleanup >= -skew && last >= -skew && last >= cleanup - skew
    ensures Skewed(LateRun(skew, cleanup, last, n), 0.0, skew)
  {
    CallsAre(0.0, n);
    CallsAre(last, n);
  }

  /** What the first burst, the late call and the cleanup leave: a debt, or no bucket at all. */
  lemma DebtOrNothing(p: Params, skew: Time, cleanup: Time, n: nat, evicts: bool)
    requires ValidParams(p) && skew >= 0.0 && p.burst == n as real && cleanup - p.ttl > -skew
    ensures AfterEvents(p, None, Calls(0.0, n) + [Call(-skew), Cleanup(cleanup)], evicts)
         == if evicts then None else Some(Bucket(-Inflow(p.rate, skew), -skew, -skew))
  {
    var first, late, cleaned := Calls(0.0, n), [Call(-skew)], [Call(-skew), Cleanup(cleanup)];
    Drains(p, 0.0, n, evicts);
    InflowGrows(p.rate, -skew, 0.0);
    assert Inflow(p.rate, -skew) == -Inflow(p.rate, skew);
    var empty, debt := Bucket(0.0, 0.0, 0.0), Bucket(-Inflow(p.rate, skew), -skew, -skew);
    assert late[..0] == [] && cleaned[..1] == late;
    assert AfterEvents(p, Some(empty), late, evicts) == Some(debt);
    assert AfterEvents(p, Some(empty), cleaned, evicts) == if evicts then None else Some(debt);
    AfterBoth(p, None, first, cleaned, evicts);
  }

  lemma EvictedAllows(p: Params, last: Time, n: nat)
    requires ValidParams(p) && p.burst == n as real
    ensures n > 0 && Allows(p, AfterEvents(p, None, Calls(last, n - 1), true), last)
  {
    Drains(p, last, n - 1, true);
    assert Inflow(p.rate, last - last) == 0.0;
    assert (n - 1) as real + 1.0 == n as real;
  }

  lemma DebtLevel(p: Params, skew: Time, last: Time)
    ensures Level(p, Some(Bucket(-Inflow(p.rate, skew), -skew, -skew)), last) <= Inflow(p.rate, last)
  {
    assert last - -skew == last + skew;
    InflowAdds(p.rate, last, skew);
  }

  lemma DebtRefuses(p: Params, skew: Time, last: Time, n: nat)
    requires ValidParams(p) && p.burst == n as real && Inflow(p.rate, last) < n as real
    ensures n > 0 && !Allows(p, AfterEvents(p, Some(Bucket(-Inflow(p.rate, skew), -skew, -skew)), Calls(last, n - 1), false), last)
  {
    DebtLevel(p, skew, last);
    RunsOut(p, Bucket(-Inflow(p.rate, skew), -skew, -skew), last, n, n - 1);
  }

  /** The last answer of the run, in terms of what the cleanup left. */
  lemma LastLateAnswer(p: Params, skew: Time, cleanup: Time, last: Time, n: nat, evicts: bool)
    requires n > 0
    ensures var answers := Answers(p, None, LateRun(skew, cleanup, last, n), evicts);
      var left := AfterEvents(p, None, Calls(0.0, n) + [Call(-skew), Cleanup(cleanup)], evicts);
      answers != [] && answers[|answers| - 1] == Allows(p, AfterEvents(p, left, Calls(last, n - 1), evicts), last)
  {
    var front, run := Calls(0.0, n) + [Call(-skew), Cleanup(cleanup)], LateRun(skew, cleanup, last, n);
    CallsAre(last, n);
    assert run == front + Calls(last, n) && run[|run| - 1] == Call(last);
    assert run[..|run| - 1] == front + Calls(last, n - 1);
    LastAnswer(p, None, run, evicts);
    AfterBoth(p, None, front, Calls(last, n - 1), evicts);
  }

  /** The last call of the run is allowed after the eviction, and refused by the bucket in debt. */
  lemma LateRunShows(p: Params, skew: Time, cleanup: Time, last: Time, n: nat)
    requires ValidParams(p) && skew >= 0.0 && p.burst == n as real && cleanup - p.ttl > -skew && Inflow(p.rate, last) < n as real
    ensures Answers(p, None, LateRun(skew, cleanup, last, n), true) != Answers(p, None, LateRun(skew, cleanup, last, n), false)
  {
    LastLateAnswer(p, skew, cleanup, last, n, true);
    LastLateAnswer(p, skew, cleanup, last, n, false);
    DebtOrNothing(p, skew, cleanup, n, true);
    DebtOrNothing(p, skew, cleanup, n, false);
    EvictedAllows(p, last, n);
    DebtRefuses(p, skew, last, n);
  }

  ghost predicate CleanupsNeverShow(p: Params, skew: Time) {
    forall events, peak :: Skewed(events, peak, skew) ==> Answers(p, None, events, true) == Answers(p, None, events, false)
  }

  /**
   * With a whole number of tokens as burst: over all runs whose readings are at most skew out of order the
   * limiter answers as if it never evicted anything, if and only if the ttl less twice the skew lets the
   * burst flow in.
   */
  lemma CleanupsNeverShowExactly(p: Params, skew: Time, n: nat)
    requires ValidParams(p) && p.burst == n as real && skew >= 0.0
    ensures CleanupsNeverShow(p, skew) <==> Inflow(p.rate, p.ttl - skew - skew) >= p.burst
  {
    var span := p.ttl - skew - skew;
    if Inflow(p.rate, span) >= p.burst {
      forall events, peak | Skewed(events, peak, skew)
        ensures Answers(p, None, events, true) == Answers(p, None, events, false)
      {
        CleanupRefinesPlainBucket(p, None, events, peak, skew);
      }
    } else {
      var full := p.burst / p.rate;
      ScaleBack(p.burst, p.rate);
      HalfWay(p.rate, span, full);
      var middle := (span + full) / 2.0;
      var last := if middle < -skew then -skew else middle;
      InflowGrows(p.rate, -skew, 0.0);
      LateRunIsSkewed(skew, middle + skew, last, n);
      LateRunShows(p, skew, middle + skew, last, n);
    }
  }

  // ---- What a stretch allows, in whatever order its calls take effect ----

  lemma Refilling(p: Params, b: Option<Bucket>, from: Time, to: Time)
    requires ValidParams(p) && from <= to
    ensures Level(p, b, to) <= Level(p, b, from) + Inflow(p.rate, to - from)
  {
    InflowGrows(p.rate, 0.0, to - from);
    if b.Some? { InflowAdds(p.rate, from - b.value.updated, to - from); }
  }

  /** A call takes its token out of the level an earlier time would see. */
  lemma CallIsCovered(p: Params, before: Option<Bucket>, from: Time, at: Time)
    requires ValidParams(p) && from <= at
    ensures (if Allows(p, before, at) then 1.0 else 0.0) + Level(p, Some(AfterCall(p, before, at)), from) <= Level(p, before, from)
  {
    Refilling(p, before, from, at);
    assert Inflow(p.rate, from - at) == -Inflow(p.rate, at - from);
  }

  lemma LastEvent(p: Params, b: Option<Bucket>, events: seq<Event>)
    requires events != []
    ensures var front, e := events[..|events| - 1], events[|events| - 1]; var before := AfterEvents(p, b, front, false);
      CountTrue(Answers(p, b, events, false)) == CountTrue(Answers(p, b, front, false)) + if e.Call? && Allows(p, before, e.at) then 1 else 0
  {
    var front, e := events[..|events| - 1], events[|events| - 1];
    var answers := Answers(p, b, front, false);
    if e.Call? {
      assert (answers + [Allows(p, AfterEvents(p, b, front, false), e.at)])[..|answers|] == answers;
    } else {
      assert answers + [] == answers;
    }
  }

  /**
   * Tokens are conserved in any order: what a stretch allows, plus what is left at a time, is covered by
   * what there was at an earlier time and what flowed in between.
   */
  lemma {:induction false} AllowedIsCovered(p: Params, b: Option<Bucket>, events: seq<Event>, from: Time, to: Time)
    requires ValidParams(p) && from <= to && forall i :: 0 <= i < |events| ==> from <= events[i].at
    ensures CountTrue(Answers(p, b, events, false)) as real + Level(p, AfterEvents(p, b, events, false), from) <= Level(p, b, from)
    ensures CountTrue(Answers(p, b, events, false)) as real + Level(p, AfterEvents(p, b, events, false), to)
         <= Level(p, b, from) + Inflow(p.rate, to - from)
  {
    if events != [] {
      var front, e := events[..|events| - 1], events[|events| - 1];
      AllowedIsCovered(p, b, front, from, to);
      LastEvent(p, b, events);
      if e.Call? { CallIsCovered(p, AfterEvents(p, b, front, false), from, e.at); }
    }
    Refilling(p, AfterEvents(p, b, events, false), from, to);
  }

  /** How many calls with readings between two times were allowed, wherever in the run they took effect. */
  function AllowedWithin(p: Params, b: Option<Bucket>, events: seq<Event>, evicts: bool, from: Time, to: Time): nat {
    if events == [] then 0
    else
      var front, e := events[..|events| - 1], events[|events| - 1];
      AllowedWithin(p, b, front, evicts, from, to)
        + if e.Call? && from <= e.at <= to && Allows(p, AfterEvents(p, b, front, evicts), e.at) then 1 else 0
  }

  /** What a bucket would hold at a time if it could not overflow; calls only ever lower it. */
  function Reserve(p: Params, b: Bucket, to: Time): real { b.tokens + Inflow(p.rate, to - b.updated) }

  lemma CallSpendsReserve(p: Params, before: Option<Bucket>, at: Time, to: Time)
    ensures var taken := if Allows(p, before, at) then 1.0 else 0.0; var after := AfterCall(p, before, at);
      && Reserve(p, after, to) + taken == Level(p, before, at) + Inflow(p.rate, to - at)
      && (before.Some? ==> Reserve(p, after, to) + taken <= Reserve(p, before.value, to))
  {
    if before.Some? { InflowAdds(p.rate, at - before.value.updated, to - at); }
  }

  /**
   * For a bucket that is never evicted, in any order of readings and from any state: the calls allowed
   * between two times, and what is in reserve after them, are covered by the burst and what flows in.
   */
  lemma {:induction false} ReserveIsCovered(p: Params, b: Option<Bucket>, events: seq<Event>, from: Time, to: Time)
    requires ValidParams(p)
    ensures var n := AllowedWithin(p, b, events, false, from, to); var after := AfterEvents(p, b, events, false);
      n > 0 ==> after.Some? && n as real + Reserve(p, after.value, to) <= p.burst + Inflow(p.rate, to - from)
  {
    if events != [] {
      var front, e := events[..|events| - 1], events[|events| - 1];
      ReserveIsCovered(p, b, front, from, to);
      if e.Call? {
        CallSpendsReserve(p, AfterEvents(p, b, front, false), e.at, to);
        if from <= e.at { InflowGrows(p.rate, to - e.at, to - from); }
      }
    }
  }

  lemma {:induction false} PlainRateIsBounded(p: Params, b: Option<Bucket>, events: seq<Event>, from: Time, to: Time)
    requires ValidParams(p) && from <= to
    ensures AllowedWithin(p, b, events, false, from, to) as real <= p.burst + Inflow(p.rate, to - from)
  {
    InflowGrows(p.rate, 0.0, to - from);
    if events != [] {
      var front, e := events[..|events| - 1], events[|events| - 1];
      if e.Call? && from <= e.at <= to && Allows(p, AfterEvents(p, b, front, false), e.at) {
        ReserveIsCovered(p, b, events, from, to);
        InflowGrows(p.rate, 0.0, to - e.at);
      } else {
        PlainRateIsBounded(p, b, front, from, to);
      }
    }
  }

  /** As long as evictions do not show, they do not change what is allowed between two times either. */
  lemma {:induction false} EvictionsAllowTheSame(p: Params, b: Option<Bucket>, events: seq<Event>, peak: Time, skew: Time, from: Time, to: Time)
    requires ValidParams(p) && skew >= 0.0 && Inflow(p.rate, p.ttl - skew - skew) >= p.burst
    requires Sound(p, b, peak, skew) && Skewed(events, peak, skew)
    ensures AllowedWithin(p, b, events, true, from, to) == AllowedWithin(p, b, events, false, from, to)
  {
    if events != [] {
      var front, e := events[..|events| - 1], events[|events| - 1];
      SkewedPrefix(events, peak, skew);
      EvictionsAllowTheSame(p, b, front, peak, skew, from, to);
      CleanupRefinesPlainBucket(p, b, events, peak, skew);
      CleanupRefinesPlainBucket(p, b, front, peak, skew);
      if e.Call? { LastAnswer(p, b, events, true); LastAnswer(p, b, events, false); }
    }
  }

  /**
   * Over every run whose readings are at most skew out of order, the calls allowed for one key with readings
   * between two times number at most the burst plus the rate times the time between, wherever in the run they
   * took effect and whatever calls and cleanups came between them.
   */
  lemma RateIsBounded(p: Params, b: Option<Bucket>, events: seq<Event>, peak: Time, skew: Time, from: Time, to: Time)
    requires ValidParams(p) && skew >= 0.0 && Inflow(p.rate, p.ttl - skew - skew) >= p.burst
    requires Sound(p, b, peak, skew) && Skewed(events, peak, skew) && from <= to
    ensures AllowedWithin(p, b, events, true, from, to) as real <= p.burst + Inflow(p.rate, to - from)
  {
    EvictionsAllowTheSame(p, b, events, peak, skew, from, to);
    PlainRateIsBounded(p, b, events, from, to);
  }

  // ---- The limiter ----

  const SHARDS := 64

  const CLEANUP_EVERY := 1024

  class RateLimiter {
    const p: Params
    const hash: string -> nat
    var shards: seq<map<string, Bucket>>
    var calls: nat

    ghost predicate Valid()
      reads this
    {
      && ValidParams(p) && |shards| == SHARDS
      && forall i, k :: 0 <= i < SHARDS && k in shards[i] ==> hash(k) % SHARDS == i
    }

    /** The bucket of a key, wherever it is kept. */
    ghost function BucketOf(k: string): Option<Bucket>
      reads this
      requires Valid()
    {
      var s := shards[hash(k) % SHARDS];
      if k in s then Some(s[k]) else None
    }

    constructor (params: Params, hash: string -> nat)
      ensures Valid() && p == Normalized(params) && this.hash == hash && calls == 0 && |shards| == 64
      ensures forall k :: BucketOf(k).None?
    {
      p := Normalized(params);
      this.hash := hash;
      shards := seq(SHARDS, i => map[]);
      calls := 0;
    }

    /** Goes through the shards one after the other and deletes what has been idle for the ttl. */
    method Cleanup(now: Time)
      requires Valid()
      modifies this`shards
      ensures Valid()
      ensures forall k :: BucketOf(k) == Evicted(p, old(BucketOf(k)), now)
    {
      var i := 0;
      while i < SHARDS
        invariant 0 <= i <= SHARDS && Valid()
        invariant forall j :: 0 <= j < i ==> shards[j] == Kept(old(shards)[j], now)
        invariant forall j :: i <= j < SHARDS ==> shards[j] == old(shards)[j]
      {
        var kept := CleanShard(shards[i], now);
        shards := shards[i := kept];
        i := i + 1;
      }
    }

    function Kept(buckets: map<string, Bucket>, now: Time): map<string, Bucket> {
      map k | k in buckets && !Idle(p, buckets[k], now) :: buckets[k]
    }

    method CleanShard(buckets: map<string, Bucket>, now: Time) returns (kept: map<string, Bucket>)
      ensures kept == Kept(buckets, now)
    {
      kept := buckets;
      var rest := buckets.Keys;
      while rest != {}
        invariant rest <= buckets.Keys && kept.Keys <= buckets.Keys
        invariant forall k :: k in buckets ==> (k in kept <==> k in rest || !Idle(p, buckets[k], now))
        invariant forall k :: k in kept ==> kept[k] == buckets[k]
        decreases rest
      {
        var k := Pick(rest);
        rest := rest - {k};
        if Idle(p, kept[k], now) {
          kept := kept - {k};
        }
      }
      assert kept == Kept(buckets, now);
    }

    /** One call; every so many calls a cleanup goes first, a moment earlier. */
    method Allow(key: string, cleanupAt: Time, now: Time) returns (ok: bool)
      requires Valid()
      modifies this
      ensures Valid() && calls == old(calls) + 1
      ensures var cleans := calls % 1024 == 0;
        var before := if cleans then Evicted(p, old(BucketOf(key)), cleanupAt) else old(BucketOf(key));
        && ok == Allows(p, before, now)
        && BucketOf(key) == Some(AfterCall(p, before, now))
        && forall k :: k != key ==> BucketOf(k) == if cleans then Evicted(p, old(BucketOf(k)), cleanupAt) else old(BucketOf(k))
    {
      calls := calls + 1;
      if calls % CLEANUP_EVERY == 0 {
        Cleanup(cleanupAt);
      }
      ghost var before := BucketOf(key);
      label cleaned:
      var i := hash(key) % SHARDS;
      var b := if key in shards[i] then shards[i][key] else Bucket(p.burst, now, now);
      InflowGrows(p.rate, 0.0, 0.0);
      var tokens := b.tokens + Inflow(p.rate, now - b.updated);
      if tokens > p.burst {
        tokens := p.burst;
      }
      assert tokens == Level(p, before, now);
      ok := tokens >= 1.0;
      if ok {
        tokens := tokens - 1.0;
      }
      shards := shards[i := shards[i][key := Bucket(tokens, now, now)]];
      assert BucketOf(key) == Some(AfterCall(p, before, now));
      forall k | k != key ensures BucketOf(k) == old@cleaned(BucketOf(k)) {}
    }
  }
}
