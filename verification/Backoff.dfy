/** Retry delays (pkg/util/wait/backoff.go). Times and durations are whole numbers of
    nanoseconds, factors are reals; the clock and the random number come with each call. */
module Backoff {

  datatype Options = Options(
    duration: int, factor: real, jitter: real, max: int, initIfFail: int,
    fastCount: int, fastDelay: int, fastJitter: real, window: int)

  const SECOND := 1_000_000_000

  datatype Moment = Never | At(time: int)

  /** `fast` is the number of calls in the current fast-retry window. */
  datatype State = State(called: bool, errors: nat, cutoff: Moment, fast: nat)

  /** One call of `Backoff`: whether the last attempt failed, the time, a random number. */
  datatype Call = Call(failed: bool, now: int, random: real)

  const INITIAL := State(false, 0, Never, 1)

  function EmptyOr(v: int, fallback: int): int {
    if v == 0 then fallback else v
  }

  /** `time.Duration` of a real drops the fraction. */
  function Truncated(x: real): int {
    if x >= 0.0 then x.Floor else -((-x).Floor)
  }

  /** `Jitter`. */
  function Jittered(d: int, factor: real, random: real): int {
    d + Truncated(random * (if factor <= 0.0 then 1.0 else factor) * d as real)
  }

  function Scaled(o: Options, d: int): int {
    if o.factor != 0.0 then Truncated(d as real * o.factor) else d
  }

  function Spread(o: Options, d: int, random: real): int {
    if o.jitter > 0.0 then Jittered(d, o.jitter, random) else d
  }

  /** From the delay before to the delay after one more error. */
  function Grown(o: Options, d: int, random: real): int {
    var spread := Spread(o, Scaled(o, EmptyOr(d, SECOND)), random);
    if o.max > 0 && spread > o.max then o.max else spread
  }

  predicate Passed(cutoff: Moment, now: int) {
    cutoff.Never? || now > cutoff.time
  }

  /** This call is a fast retry. */
  predicate Fast(o: Options, s: State, c: Call) {
    s.called && o.fastCount > 0 && c.failed && s.fast + 1 <= o.fastCount
  }

  function Next(o: Options, s: State, c: Call): State {
    if !s.called then s.(called := true)
    else
      var t := s.(errors := if c.failed then s.errors + 1 else 0);
      if !(o.fastCount > 0 && c.failed) then t
      else if s.fast + 1 <= o.fastCount || !Passed(s.cutoff, c.now) then t.(fast := s.fast + 1)
      else t.(cutoff := At(c.now + o.window), fast := 0)
  }

  /** The delay that the call returns. */
  function Delay(o: Options, s: State, c: Call, previous: int): int {
    if !s.called then o.duration
    else if Fast(o, s, c) then Jittered(o.fastDelay, o.fastJitter, c.random)
    else if !c.failed then o.duration
    else Grown(o, if s.errors == 0 then EmptyOr(o.initIfFail, previous) else previous, c.random)
  }

  function After(o: Options, s: State, calls: seq<Call>): State
    decreases |calls|
  {
    if calls == [] then s else After(o, Next(o, s, calls[0]), calls[1..])
  }

  // ---------- fast retries ----------

  function FastRetries(o: Options, s: State, calls: seq<Call>): nat
    decreases |calls|
  {
    if calls == [] then 0
    else (if Fast(o, s, calls[0]) then 1 else 0) + FastRetries(o, Next(o, s, calls[0]), calls[1..])
  }

  ghost predicate Within(calls: seq<Call>, from: int, to: int) {
    forall i :: 0 <= i < |calls| ==> from <= calls[i].now <= to
  }

  function Room(o: Options, s: State): nat {
    if s.fast < o.fastCount then o.fastCount - s.fast else 0
  }

  function Max0(n: int): nat {
    if n < 0 then 0 else n
  }

  /** Within one window the retry window is reopened at most once: reopening it puts the next
      time beyond the end. */
  lemma {:induction false} FastRetriesWithin(o: Options, s: State, calls: seq<Call>, from: int, to: int)
    requires to - from <= o.window && Within(calls, from, to)
    ensures FastRetries(o, s, calls) <= Room(o, s) + if Passed(s.cutoff, to) then Max0(o.fastCount) else 0
    decreases |calls|
  {
    if calls != [] {
      FastRetriesWithin(o, Next(o, s, calls[0]), calls[1..], from, to);
    }
  }

  /** Whatever happened before, a stretch of time no longer than the window has at most twice
      `FastRetryCount` fast retries. */
  lemma FastRetriesBounded(o: Options, before: seq<Call>, calls: seq<Call>, from: int, to: int)
    requires to - from <= o.window && Within(calls, from, to)
    ensures FastRetries(o, After(o, INITIAL, before), calls) <= 2 * Max0(o.fastCount)
  {
    FastRetriesWithin(o, After(o, INITIAL, before), calls, from, to);
  }

  /** The bound is met: a window that was opened early is used up late, and a new one follows. */
  lemma BoundIsMet(o: Options)
    requires o.fastCount == 2 && o.window == 10
    ensures var before := [Call(false, 0, 0.0), Call(true, 0, 0.0), Call(true, 0, 0.0)];
            var calls := [Call(true, 9, 0.0), Call(true, 10, 0.0), Call(true, 11, 0.0), Call(true, 12, 0.0), Call(true, 13, 0.0)];
            Within(calls, 9, 13) && FastRetries(o, After(o, INITIAL, before), calls) == 2 * o.fastCount
  {
    var b := [Call(false, 0, 0.0), Call(true, 0, 0.0), Call(true, 0, 0.0)];
    var s1 := Next(o, INITIAL, b[0]);
    var s2 := Next(o, s1, b[1]);
    var s3 := Next(o, s2, b[2]);
    assert After(o, s2, [b[2]]) == s3;
    assert b[1..] == [b[1], b[2]] && b[1..][1..] == [b[2]];
    assert s3.fast == 0 && s3.cutoff == At(10);
    var c := [Call(true, 9, 0.0), Call(true, 10, 0.0), Call(true, 11, 0.0), Call(true, 12, 0.0), Call(true, 13, 0.0)];
    var t4 := c[1..];
    var t3 := t4[1..];
    var t2 := t3[1..];
    var t1 := t2[1..];
    var u1 := Next(o, s3, c[0]);
    var u2 := Next(o, u1, t4[0]);
    var u3 := Next(o, u2, t3[0]);
    var u4 := Next(o, u3, t2[0]);
    assert u3.fast == 0 && u2.fast == 2;
    assert FastRetries(o, u4, t1) == 1;
    assert FastRetries(o, u3, t2) == 2;
    assert FastRetries(o, u2, t3) == 2;
  }

  // ---------- delays after errors ----------

  /** The delays of these calls, each given the one before. */
  function Delays(o: Options, s: State, calls: seq<Call>, previous: int): (r: seq<int>)
    ensures |r| == |calls|
    decreases |calls|
  {
    if calls == [] then []
    else
      var d := Delay(o, s, calls[0], previous);
      [d] + Delays(o, Next(o, s, calls[0]), calls[1..], d)
  }

  function Pow2(k: nat): (p: nat)
    ensures p >= 1
  {
    if k == 0 then 1 else 2 * Pow2(k - 1)
  }

  /** Doubling, and no fast retries. A maximum that is not positive is no maximum. */
  ghost predicate Doubling(o: Options) {
    o.fastCount <= 0 && o.factor >= 2.0 && o.initIfFail >= 0 && o.duration >= 0
  }

  predicate Capped(d: int, max: int) {
    max > 0 ==> d <= max
  }

  predicate AtCap(d: int, max: int) {
    max > 0 && d == max
  }

  ghost predicate Random(calls: seq<Call>) {
    forall i :: 0 <= i < |calls| ==> 0.0 <= calls[i].random < 1.0
  }

  lemma TruncatedAtLeast(x: real, n: nat)
    requires x >= n as real
    ensures Truncated(x) >= n
  {
  }

  lemma ScaledDoubles(o: Options, d: nat)
    requires o.factor >= 2.0
    ensures Scaled(o, d) >= 2 * d
  {
    assert d as real * o.factor >= d as real * 2.0;
    TruncatedAtLeast(d as real * o.factor, 2 * d);
  }

  lemma SpreadOnlyAdds(o: Options, d: nat, random: real)
    requires random >= 0.0
    ensures Spread(o, d, random) >= d
  {
    if o.jitter > 0.0 {
      var f := random * o.jitter;
      assert f >= 0.0;
      assert f * d as real >= 0.0;
      TruncatedAtLeast(f * d as real, 0);
    }
  }

  /** One more error at least doubles the delay, up to the cap. */
  lemma GrownDoubles(o: Options, d: nat, random: real)
    requires o.factor >= 2.0 && random >= 0.0
    ensures var base, r := EmptyOr(d, SECOND), Grown(o, d, random);
            0 < r && Capped(r, o.max) && (r >= 2 * base || AtCap(r, o.max))
  {
    var base := EmptyOr(d, SECOND);
    var scaled := Scaled(o, base);
    ScaledDoubles(o, base);
    var spread := Spread(o, scaled, random);
    SpreadOnlyAdds(o, scaled, random);
    assert spread >= 2 * base;
    assert Grown(o, d, random) == if o.max > 0 && spread > o.max then o.max else spread;
  }

  /** What the first error of a stretch starts from. */
  function Base(o: Options, previous: int): int {
    EmptyOr(EmptyOr(o.initIfFail, previous), SECOND)
  }

  /** From `base` on: positive, never above the cap, never falling, and at the cap as soon as
      doubling that often reaches it. */
  ghost predicate Rising(ds: seq<int>, base: int, max: int) {
    && (forall i :: 0 <= i < |ds| ==> 0 < ds[i] && Capped(ds[i], max))
    && (forall i :: 1 <= i < |ds| ==> ds[i - 1] <= ds[i])
    && (forall i :: 0 <= i < |ds| ==> Pow2(i + 1) * base <= ds[i] || AtCap(ds[i], max))
  }

  lemma DoubledOnceMore(i: nat, v: int, first: int, base: int, max: int)
    requires Capped(v, max) && first > 0 && (Pow2(i) * first <= v || AtCap(v, max)) && (first >= 2 * base || AtCap(first, max))
    ensures Pow2(i + 1) * base <= v || AtCap(v, max)
  {
    var p := Pow2(i);
    assert p * first >= first;
    if first >= 2 * base {
      assert p * first >= p * (2 * base);
      assert (2 * p) * base == p * (2 * base);
    }
  }

  lemma RisingFrom(ds: seq<int>, first: int, base: int, max: int)
    requires Rising(ds, first, max) && 0 < first && Capped(first, max) && (first >= 2 * base || AtCap(first, max)) && base > 0
    requires ds != [] ==> first <= ds[0]
    ensures Rising([first] + ds, base, max)
  {
    var r := [first] + ds;
    forall i | 0 <= i < |r| ensures Pow2(i + 1) * base <= r[i] || AtCap(r[i], max) {
      if i == 0 {
        assert Pow2(1) == 2;
      } else {
        assert ds[i - 1] == r[i];
        DoubledOnceMore(i, r[i], first, base, max);
      }
    }
  }

  lemma {:induction false} LaterErrors(o: Options, s: State, calls: seq<Call>, previous: int)
    requires Doubling(o) && Random(calls) && s.called && s.errors > 0 && 0 < previous && Capped(previous, o.max)
    requires forall i :: 0 <= i < |calls| ==> calls[i].failed
    ensures Rising(Delays(o, s, calls, previous), previous, o.max)
    ensures calls != [] ==> previous <= Delays(o, s, calls, previous)[0]
    decreases |calls|
  {
    if calls != [] {
      var d := Delay(o, s, calls[0], previous);
      GrownDoubles(o, previous, calls[0].random);
      LaterErrors(o, Next(o, s, calls[0]), calls[1..], d);
      RisingFrom(Delays(o, Next(o, s, calls[0]), calls[1..], d), d, previous, o.max);
    }
  }

  /** A stretch of errors after a success (or at the start). */
  lemma ErrorStretch(o: Options, s: State, calls: seq<Call>, previous: int)
    requires Doubling(o) && Random(calls) && s.called && s.errors == 0 && previous >= 0
    requires forall i :: 0 <= i < |calls| ==> calls[i].failed
    ensures Rising(Delays(o, s, calls, previous), Base(o, previous), o.max)
  {
    if calls != [] {
      var d := Delay(o, s, calls[0], previous);
      GrownDoubles(o, EmptyOr(o.initIfFail, previous), calls[0].random);
      LaterErrors(o, Next(o, s, calls[0]), calls[1..], d);
      RisingFrom(Delays(o, Next(o, s, calls[0]), calls[1..], d), d, Base(o, previous), o.max);
    }
  }

  /** The delay before the last of these calls' successors: the last one returned. */
  function LastDelay(o: Options, s: State, calls: seq<Call>, previous: int): int {
    var ds := Delays(o, s, calls, previous);
    if ds == [] then previous else ds[|ds| - 1]
  }

  lemma {:induction false} DelaysSplit(o: Options, s: State, a: seq<Call>, b: seq<Call>, previous: int)
    ensures Delays(o, s, a + b, previous) ==
            Delays(o, s, a, previous) + Delays(o, After(o, s, a), b, LastDelay(o, s, a, previous))
    decreases |a|
  {
    if a == [] {
      assert a + b == b;
    } else {
      assert (a + b)[1..] == a[1..] + b;
      DelaysSplit(o, Next(o, s, a[0]), a[1..], b, Delay(o, s, a[0], previous));
    }
  }

  /** After any history, delays are not negative, and after a call without an error the count of
      consecutive errors is zero. */
  lemma {:induction false} HistoryFacts(o: Options, s: State, calls: seq<Call>, previous: int)
    requires Doubling(o) && Random(calls) && previous >= 0 && s.called
    ensures LastDelay(o, s, calls, previous) >= 0 && After(o, s, calls).called
    ensures calls != [] && !calls[|calls| - 1].failed ==> After(o, s, calls).errors == 0
    ensures calls == [] ==> After(o, s, calls) == s
    decreases |calls|
  {
    if calls != [] {
      var d := Delay(o, s, calls[0], previous);
      if calls[0].failed {
        GrownDoubles(o, if s.errors == 0 then EmptyOr(o.initIfFail, previous) else previous, calls[0].random);
      }
      HistoryFacts(o, Next(o, s, calls[0]), calls[1..], d);
    }
  }

  /** In a whole run, every stretch of errors that follows a success or the start has rising
      delays: positive, never falling, never above the maximum if there is one, and doubled with
      every error up to there. */
  lemma DelaysRise(o: Options, first: Call, before: seq<Call>, errors: seq<Call>)
    requires Doubling(o) && Random(before) && Random(errors)
    requires before != [] ==> !before[|before| - 1].failed
    requires forall i :: 0 <= i < |errors| ==> errors[i].failed
    ensures var s := Next(o, INITIAL, first);
            Rising(Delays(o, s, before + errors, 0)[|before|..], Base(o, LastDelay(o, s, before, 0)), o.max)
  {
    var s := Next(o, INITIAL, first);
    HistoryFacts(o, s, before, 0);
    DelaysSplit(o, s, before, errors, 0);
    var rest := Delays(o, After(o, s, before), errors, LastDelay(o, s, before, 0));
    assert Delays(o, s, before + errors, 0)[|before|..] == rest;
    ErrorStretch(o, After(o, s, before), errors, LastDelay(o, s, before, 0));
  }

  /** In a whole run, a stretch of errors is at the maximum from the error on with which doubling its
      base would pass it: after a number of errors that is logarithmic in the maximum. */
  lemma ReachesCap(o: Options, first: Call, before: seq<Call>, errors: seq<Call>, k: nat)
    requires Doubling(o) && Random(before) && Random(errors) && o.max > 0
    requires before != [] ==> !before[|before| - 1].failed
    requires forall i :: 0 <= i < |errors| ==> errors[i].failed
    requires k < |errors| && Pow2(k + 1) * Base(o, LastDelay(o, Next(o, INITIAL, first), before, 0)) >= o.max
    ensures var ds := Delays(o, Next(o, INITIAL, first), before + errors, 0);
            forall j :: |before| + k <= j < |ds| ==> ds[j] == o.max
  {
    DelaysRise(o, first, before, errors);
    var s := Next(o, INITIAL, first);
    var ds := Delays(o, s, before + errors, 0);
    RisingReaches(ds[|before|..], Base(o, LastDelay(o, s, before, 0)), o.max, k);
    TailIs(ds, |before|, k, o.max);
  }

  lemma TailIs(ds: seq<int>, n: nat, k: nat, v: int)
    requires n <= |ds| && forall j :: k <= j < |ds[n..]| ==> ds[n..][j] == v
    ensures forall j :: n + k <= j < |ds| ==> ds[j] == v
  {
    forall j | n + k <= j < |ds| ensures ds[j] == v {
      assert ds[n..][j - n] == ds[j];
    }
  }

  lemma RisingReaches(ds: seq<int>, base: int, max: int, k: nat)
    requires Rising(ds, base, max) && k < |ds| && max > 0 && Pow2(k + 1) * base >= max
    ensures forall j :: k <= j < |ds| ==> ds[j] == max
  {
    forall j | k <= j < |ds| ensures ds[j] == max {
      AtCapStays(ds, base, max, k, j);
    }
  }

  lemma {:induction false} AtCapStays(ds: seq<int>, base: int, max: int, k: nat, j: nat)
    requires Rising(ds, base, max) && k <= j < |ds| && AtCap(ds[k], max)
    ensures AtCap(ds[j], max)
  {
    if k < j {
      AtCapStays(ds, base, max, k, j - 1);
      assert ds[j - 1] <= ds[j];
    }
  }

  // ---------- how long each delay is ----------

  function Stretch(jitter: real): real {
    if jitter <= 0.0 then 1.0 else jitter
  }

  lemma ProductAtMost(x: real, a: real, b: real)
    requires 0.0 <= x && a <= b
    ensures x * a <= x * b
  {
  }

  lemma ProductNotNegative(x: real, y: real)
    requires 0.0 <= x && 0.0 <= y
    ensures 0.0 <= x * y
  {
  }

  /** Jitter adds at most its share. */
  lemma JitteredWithin(d: nat, factor: real, random: real)
    requires 0.0 <= random < 1.0
    ensures d <= Jittered(d, factor, random) && Jittered(d, factor, random) as real <= d as real * (1.0 + Stretch(factor))
  {
    var f := Stretch(factor);
    var x := random * f * d as real;
    assert random * f >= 0.0 && random * f <= f by {
      ProductNotNegative(random, f);
      ProductAtMost(f, random, 1.0);
      assert random * f == f * random;
    }
    ProductAtMost(d as real, random * f, f);
    ProductNotNegative(d as real, random * f);
    assert x == d as real * (random * f);
    assert 0.0 <= x <= d as real * f;
    assert d as real * (1.0 + f) == d as real + d as real * f;
  }

  /** The delay before, or one second if there was none, times the factor. */
  function Product(o: Options, d: nat): real {
    EmptyOr(d, SECOND) as real * (if o.factor == 0.0 then 1.0 else o.factor)
  }

  lemma ScaledIs(o: Options, d: nat)
    requires o.factor >= 0.0
    ensures var x := Scaled(o, EmptyOr(d, SECOND)); 0 <= x && x as real <= Product(o, d) < x as real + 1.0
  {
    var base := EmptyOr(d, SECOND);
    ProductNotNegative(base as real, o.factor);
  }

  function Share(jitter: real): real {
    if jitter > 0.0 then jitter else 0.0
  }

  lemma SpreadWithin(o: Options, d: nat, random: real)
    requires 0.0 <= random < 1.0
    ensures d <= Spread(o, d, random) && Spread(o, d, random) as real <= d as real * (1.0 + Share(o.jitter))
  {
    if o.jitter > 0.0 {
      JitteredWithin(d, o.jitter, random);
    }
  }

  /** The longest that the delay after an error can be. */
  function Limit(o: Options, d: nat): real {
    Product(o, d) * (1.0 + Share(o.jitter))
  }

  lemma SpreadUnderLimit(o: Options, d: nat, random: real)
    requires o.factor >= 0.0 && 0.0 <= random < 1.0
    ensures var spread := Spread(o, Scaled(o, EmptyOr(d, SECOND)), random);
            Product(o, d) - 1.0 < spread as real <= Limit(o, d)
  {
    var scaled := Scaled(o, EmptyOr(d, SECOND));
    ScaledIs(o, d);
    SpreadWithin(o, scaled, random);
    ProductAtMost(1.0 + Share(o.jitter), scaled as real, Product(o, d));
  }

  lemma CappedUnderLimit(spread: int, max: int, x: real, limit: real)
    requires x - 1.0 < spread as real <= limit
    ensures var r := if max > 0 && spread > max then max else spread;
            r as real <= limit && (r as real > x - 1.0 || AtCap(r, max)) && Capped(r, max) && (AtCap(r, max) ==> max as real <= limit)
  {
  }

  /** After an error the delay is that product, rounded down and stretched by no more than the jitter,
      unless the maximum is smaller. */
  lemma GrownWithin(o: Options, d: nat, random: real)
    requires o.factor >= 0.0 && 0.0 <= random < 1.0
    ensures var r := Grown(o, d, random);
            && r as real <= Limit(o, d)
            && (r as real > Product(o, d) - 1.0 || AtCap(r, o.max)) && Capped(r, o.max)
            && (AtCap(r, o.max) ==> o.max as real <= Limit(o, d))
  {
    SpreadUnderLimit(o, d, random);
    CappedUnderLimit(Spread(o, Scaled(o, EmptyOr(d, SECOND)), random), o.max, Product(o, d), Limit(o, d));
  }

  /** Each delay of a run is that of its own call, in the state that the calls before it left, given
      the delay before it. */
  lemma {:induction false} DelayAt(o: Options, s: State, calls: seq<Call>, previous: int, i: nat)
    requires i < |calls|
    ensures Delays(o, s, calls, previous)[i] ==
            Delay(o, After(o, s, calls[..i]), calls[i], if i == 0 then previous else Delays(o, s, calls, previous)[i - 1])
    decreases |calls|
  {
    if i > 0 {
      var d := Delay(o, s, calls[0], previous);
      DelayAt(o, Next(o, s, calls[0]), calls[1..], d, i - 1);
      assert calls[..i][0] == calls[0] && calls[..i][1..] == calls[1..][..i - 1];
    }
  }

  /** The four kinds of calls: the first one and one after a success give the plain duration, a fast
      retry the fast delay with its jitter, and any other error the grown delay, from the initial
      one if it is the first error in a row and there is one. */
  lemma DelayMeans(o: Options, s: State, c: Call, previous: nat)
    requires 0.0 <= c.random < 1.0 && o.fastDelay >= 0
    ensures var d := Delay(o, s, c, previous);
            && (!s.called || !c.failed ==> d == o.duration)
            && (s.called && c.failed && o.fastCount > 0 && s.fast < o.fastCount ==>
                  o.fastDelay <= d && d as real <= o.fastDelay as real * (1.0 + Stretch(o.fastJitter)))
            && (s.called && c.failed && !(o.fastCount > 0 && s.fast < o.fastCount) ==>
                  d == Grown(o, if s.errors == 0 && o.initIfFail != 0 then o.initIfFail else previous, c.random))
  {
    if o.fastDelay >= 0 {
      JitteredWithin(o.fastDelay, o.fastJitter, c.random);
    }
  }

  /** While there is room, every error is a fast retry. */
  lemma {:induction false} RoomIsUsed(o: Options, s: State, calls: seq<Call>)
    requires s.called && |calls| <= Room(o, s) && forall i :: 0 <= i < |calls| ==> calls[i].failed
    ensures FastRetries(o, s, calls) == |calls|
    decreases |calls|
  {
    if calls != [] {
      RoomIsUsed(o, Next(o, s, calls[0]), calls[1..]);
    }
  }

  /** Once it is used up, an error after the end of the window makes room for all again, for a new
      window from now on; an earlier one makes none. */
  lemma WindowReopensIff(o: Options, s: State, c: Call)
    requires s.called && c.failed && o.fastCount > 0 && Room(o, s) == 0
    ensures var t := Next(o, s, c);
            if s.cutoff == Never || c.now > s.cutoff.time then Room(o, t) == o.fastCount && t.cutoff == At(c.now + o.window)
            else Room(o, t) == 0 && t.cutoff == s.cutoff
  {
  }

  // ---------- the object and the loop ----------

  class FastBackoff {
    const options: Options
    var called: bool
    var consecutiveErrCount: nat
    var fastRetryCutoffTime: Moment
    var countsInFastRetryWindow: nat

    ghost function Model(): State
      reads this
    {
      State(called, consecutiveErrCount, fastRetryCutoffTime, countsInFastRetryWindow)
    }

    constructor (options: Options)
      ensures this.options == options && Model() == INITIAL
    {
      this.options := options;
      called, consecutiveErrCount, fastRetryCutoffTime, countsInFastRetryWindow := false, 0, Never, 1;
    }

    method Backoff(previous: int, c: Call) returns (d: int)
      modifies this
      ensures Model() == Next(options, old(Model()), c) && d == Delay(options, old(Model()), c, previous)
    {
      if !called {
        called := true;
        return options.duration;
      }
      if c.failed {
        consecutiveErrCount := consecutiveErrCount + 1;
      } else {
        consecutiveErrCount := 0;
      }
      if options.fastCount > 0 && c.failed {
        countsInFastRetryWindow := countsInFastRetryWindow + 1;
        if countsInFastRetryWindow <= options.fastCount {
          return Jittered(options.fastDelay, options.fastJitter, c.random);
        }
        if Passed(fastRetryCutoffTime, c.now) {
          fastRetryCutoffTime := At(c.now + options.window);
          countsInFastRetryWindow := 0;
        }
      }
      if c.failed {
        var base := if consecutiveErrCount == 1 then EmptyOr(options.initIfFail, previous) else previous;
        return Grown(options, base, c.random);
      }
      return options.duration;
    }
  }

  /** One round of `BackoffUntil`: stopped before the attempt, done or failed by it, the time and
      random number of the call of the manager, stopped while waiting. */
  datatype Round = Round(stopped: bool, done: bool, failed: bool, now: int, random: real, stoppedWaiting: bool)

  /** The calls of the manager that these rounds make: after the attempt if sliding, before it,
      with the outcome of the one before, if not. */
  function CallsMade(sliding: bool, rounds: seq<Round>, failedBefore: bool): seq<Call>
    decreases |rounds|
  {
    if rounds == [] || rounds[0].stopped then []
    else
      var r := rounds[0];
      var c := Call(if sliding then r.failed else failedBefore, r.now, r.random);
      if sliding && r.done then []
      else if r.done || r.stoppedWaiting then [c]
      else [c] + CallsMade(sliding, rounds[1..], r.failed)
  }

  predicate GoesOn(r: Round) {
    !r.stopped && !r.done && !r.stoppedWaiting
  }

  /** As long as rounds go on there is one call in each, about this round's attempt if sliding and
      about that of the round before, if there was one, if not. */
  lemma {:induction false} CallOfRound(sliding: bool, rounds: seq<Round>, failedBefore: bool, i: nat)
    requires i < |rounds| && forall j :: 0 <= j <= i ==> GoesOn(rounds[j])
    ensures i < |CallsMade(sliding, rounds, failedBefore)|
    ensures var c, r := CallsMade(sliding, rounds, failedBefore)[i], rounds[i];
            && c.now == r.now && c.random == r.random
            && (sliding ==> c.failed == r.failed)
            && (!sliding ==> c.failed == if i == 0 then failedBefore else rounds[i - 1].failed)
    decreases |rounds|
  {
    assert GoesOn(rounds[0]);
    if i > 0 {
      assert forall j :: 0 <= j < i ==> rounds[1..][j] == rounds[j + 1];
      CallOfRound(sliding, rounds[1..], rounds[0].failed, i - 1);
    }
  }

  /** And the first round that does not go on is the last that calls, which a sliding one does not
      once it is done, and none does that is stopped before its attempt. */
  lemma {:induction false} LastCall(sliding: bool, rounds: seq<Round>, failedBefore: bool, i: nat)
    requires i < |rounds| && !GoesOn(rounds[i]) && forall j :: 0 <= j < i ==> GoesOn(rounds[j])
    ensures |CallsMade(sliding, rounds, failedBefore)| ==
            i + if rounds[i].stopped || (sliding && rounds[i].done) then 0 else 1
    decreases |rounds|
  {
    if i > 0 {
      assert GoesOn(rounds[0]);
      assert forall j :: 0 <= j < i ==> rounds[1..][j] == rounds[j + 1];
      LastCall(sliding, rounds[1..], rounds[0].failed, i - 1);
    }
  }

  /** The loop passes each delay on to the next call, until it is done or stopped or, here, the
      rounds end. */
  method BackoffUntil(b: FastBackoff, sliding: bool, first: Call, rounds: seq<Round>) returns (delays: seq<int>)
    requires b.Model() == INITIAL
    modifies b
    ensures delays == Delays(b.options, Next(b.options, INITIAL, first), CallsMade(sliding, rounds, false), 0)
  {
    var delay, failed := 0, false;
    var _ := b.Backoff(delay, first);
    ghost var s := b.Model();
    ghost var made: seq<Call> := [];
    delays := [];
    for i := 0 to |rounds|
      invariant CallsMade(sliding, rounds, false) == made + CallsMade(sliding, rounds[i..], failed)
      invariant Made(b.options, s, made, b.Model(), delay, delays) && s == Next(b.options, INITIAL, first)
    {
      var r := rounds[i];
      RoundCalls(sliding, rounds, i, failed, made);
      if r.stopped {
        return;
      }
      if !sliding {
        delay, delays, made := Ask(b, s, made, delay, delays, Call(failed, r.now, r.random));
      }
      if r.done {
        return;
      }
      failed := r.failed;
      if sliding {
        delay, delays, made := Ask(b, s, made, delay, delays, Call(failed, r.now, r.random));
      }
      if r.stoppedWaiting {
        return;
      }
    }
    assert rounds[|rounds|..] == [] && made + [] == made;
  }

  /** One more call of the manager. */
  method Ask(b: FastBackoff, ghost s: State, ghost made: seq<Call>, delay: int, delays: seq<int>, c: Call)
    returns (delay': int, delays': seq<int>, ghost made': seq<Call>)
    requires Made(b.options, s, made, b.Model(), delay, delays)
    modifies b
    ensures made' == made + [c] && Made(b.options, s, made', b.Model(), delay', delays')
  {
    MadeOneMore(b.options, s, made, b.Model(), delay, delays, c);
    delay' := b.Backoff(delay, c);
    made', delays' := made + [c], delays + [delay'];
  }

  /** What round `i` adds to the calls made. */
  lemma RoundCalls(sliding: bool, rounds: seq<Round>, i: nat, failed: bool, made: seq<Call>)
    requires i < |rounds|
    ensures var r := rounds[i];
            var c := Call(if sliding then r.failed else failed, r.now, r.random);
            made + CallsMade(sliding, rounds[i..], failed) ==
            if r.stopped || (sliding && r.done) then made
            else if r.done || r.stoppedWaiting then made + [c]
            else (made + [c]) + CallsMade(sliding, rounds[i + 1..], r.failed)
  {
    assert rounds[i..][0] == rounds[i] && rounds[i..][1..] == rounds[i + 1..];
  }

  /** The manager, the last delay and all delays after these calls. */
  ghost predicate Made(o: Options, s: State, calls: seq<Call>, now: State, delay: int, delays: seq<int>) {
    delays == Delays(o, s, calls, 0) && now == After(o, s, calls) && delay == LastDelay(o, s, calls, 0)
  }

  lemma MadeOneMore(o: Options, s: State, calls: seq<Call>, now: State, delay: int, delays: seq<int>, c: Call)
    requires Made(o, s, calls, now, delay, delays)
    ensures Made(o, s, calls + [c], Next(o, now, c), Delay(o, now, c, delay), delays + [Delay(o, now, c, delay)])
  {
    DelaysSplit(o, s, calls, [c], 0);
    AfterExtended(o, s, calls, c);
  }

  lemma {:induction false} AfterExtended(o: Options, s: State, calls: seq<Call>, c: Call)
    ensures After(o, s, calls + [c]) == Next(o, After(o, s, calls), c)
    decreases |calls|
  {
    if calls == [] {
      assert calls + [c] == [c];
    } else {
      assert (calls + [c])[1..] == calls[1..] + [c];
      AfterExtended(o, Next(o, s, calls[0]), calls[1..], c);
    }
  }
}
