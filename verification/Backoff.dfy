/** Retry delays (`calculateNextRetry` in internal/worker/processor.go).
    Durations are integer nanoseconds, intermediate floats are reals, and the
    random jitter is an argument in [-1, 1). */
module Backoff {
  import opened Reals

  function Pow2(a: nat): nat {
    if a == 0 then 1 else 2 * Pow2(a - 1)
  }

  /** `rand.Float64()*2 - 1`. */
  predicate IsJitter(u: real) { -1.0 <= u < 1.0 }

  /** `baseDelay * 2^attempts`. */
  function Exponential(attempts: nat, base: int): real {
    (base * Pow2(attempts)) as real
  }

  /** The exponential delay after the cap. */
  function Capped(attempts: nat, base: int, cap: int): real {
    Min(Exponential(attempts, base), cap as real)
  }

  /** Jitter of up to a fifth either way, then the floor. */
  function Jittered(d: real, floor: real, u: real): real {
    Max(d + JitterOf(d, u), floor)
  }

  function JitterOf(d: real, u: real): real { d * 0.2 * u }

  /** The delay before it is truncated to whole nanoseconds. */
  function ExactDelay(attempts: nat, base: int, cap: int, u: real): real {
    Jittered(Capped(attempts, base, cap), base as real, u)
  }

  /** `time.Duration(delay)` truncates toward zero. */
  function Truncate(x: real): int {
    if x >= 0.0 then x.Floor else -((-x).Floor)
  }

  function Delay(attempts: nat, base: int, cap: int, u: real): int {
    Truncate(ExactDelay(attempts, base, cap, u))
  }

  /** The body of `calculateNextRetry`, step by step. */
  method CalculateNextRetry(attempts: nat, base: int, cap: int, u: real, now: int) returns (at: int)
    ensures at == now + Delay(attempts, base, cap, u)
    ensures base >= 0 && IsJitter(u) ==>
      now + base <= at && (at - now) as real <= Max(base as real, 1.2 * cap as real)
  {
    var delay := Exponential(attempts, base);
    if delay > cap as real {
      delay := cap as real;
    }
    var jitter := JitterOf(delay, u);
    delay := delay + jitter;
    if delay < base as real {
      delay := base as real;
    }
    at := now + Truncate(delay);
    if base >= 0 && IsJitter(u) { DelayRange(attempts, base, cap, u); }
  }

  lemma Scale(x: real, y: real, f: real)
    requires x <= y && f >= 0.0
    ensures x * f <= y * f
  {
  }

  lemma JitterSize(d: real, u: real)
    requires -1.0 <= u <= 1.0
    ensures d >= 0.0 ==> -0.2 * d <= JitterOf(d, u) <= 0.2 * d
    ensures d <= 0.0 ==> 0.2 * d <= JitterOf(d, u) <= -0.2 * d
  {
    var k := d * 0.2;
    assert JitterOf(d, u) == u * k;
    if d >= 0.0 {
      Scale(-1.0, u, k);
      Scale(u, 1.0, k);
    } else {
      Scale(-1.0, u, -k);
      Scale(u, 1.0, -k);
    }
  }

  lemma JitteredRange(d: real, floor: real, u: real)
    requires floor >= 0.0 && IsJitter(u)
    ensures floor <= Jittered(d, floor, u) <= Max(floor, 1.2 * d)
    ensures d >= 0.0 ==> Jittered(d, floor, u) >= Max(floor, 0.8 * d)
  {
    JitterSize(d, u);
  }

  /** Every delay lies between the base and 1.2 times the capped exponential, so the cap
      bounds it whatever the attempt number. */
  lemma DelayRange(attempts: nat, base: int, cap: int, u: real)
    requires base >= 0 && IsJitter(u)
    ensures base <= Delay(attempts, base, cap, u)
    ensures Delay(attempts, base, cap, u) as real
         <= Max(base as real, 1.2 * Min((base * Pow2(attempts)) as real, cap as real))
    ensures Delay(attempts, base, cap, u) as real <= Max(base as real, 1.2 * cap as real)
  {
    JitteredRange(Capped(attempts, base, cap), base as real, u);
  }

  /** `Pow2` is the power of two. */
  lemma PowerOfTwo(a: nat)
    ensures Pow2(0) == 1 && Pow2(a + 1) == 2 * Pow2(a)
  {
  }

  /** Without jitter the delay doubles from the base up to the cap, which it then
      keeps. */
  lemma DelayWithoutJitter(attempts: nat, base: int, cap: int)
    requires 0 <= base <= cap
    ensures Delay(attempts, base, cap, 0.0) == if base * Pow2(attempts) <= cap then base * Pow2(attempts) else cap
  {
    ExponentialAtLeastBase(attempts, base);
    assert JitterOf(Capped(attempts, base, cap), 0.0) == 0.0;
  }

  /** The jitter changes the capped delay by a fifth of it, times a number in [-1, 1),
      and the base is the floor. */
  lemma DelayIs(attempts: nat, base: int, cap: int, d: real, u: real)
    requires base >= 0 && d == Min((base * Pow2(attempts)) as real, cap as real)
    ensures Delay(attempts, base, cap, u) == Max(d + d * 0.2 * u, base as real).Floor
  {
    assert d == Capped(attempts, base, cap);
    FloorOfJittered(d, base as real, u);
  }

  lemma FloorOfJittered(d: real, floor: real, u: real)
    requires floor >= 0.0
    ensures Truncate(Jittered(d, floor, u)) == Max(d + d * 0.2 * u, floor).Floor
  {
  }

  /** Delays of the attempts `1 .. m-1`, with one jitter each. */
  function TotalDelay(m: nat, base: int, cap: int, jitters: seq<real>): int
    requires |jitters| >= m
  {
    if m <= 1 then 0 else TotalDelay(m - 1, base, cap, jitters) + Delay(m - 1, base, cap, jitters[m - 1])
  }

  lemma ExponentialDoubles(a: nat, base: int)
    ensures Exponential(a + 1, base) == 2.0 * Exponential(a, base)
  {
    assert base * (2 * Pow2(a)) == 2 * (base * Pow2(a));
  }

  lemma {:induction false} ExponentialAtLeastBase(a: nat, base: int)
    requires base >= 0
    ensures Exponential(a, base) >= base as real
  {
    if a > 0 {
      ExponentialAtLeastBase(a - 1, base);
      ExponentialDoubles(a - 1, base);
    } else {
      assert base * Pow2(0) == base;
    }
  }

  lemma {:induction false} TotalDelayWithin(m: nat, base: int, cap: int, jitters: seq<real>)
    requires m >= 1 && |jitters| >= m && base >= 0
    requires forall i :: 0 <= i < m ==> IsJitter(jitters[i])
    ensures TotalDelay(m, base, cap, jitters) as real
         <= 1.2 * (Exponential(m, base) - 2.0 * base as real)
  {
    ExponentialAtLeastBase(m - 1, base);
    ExponentialDoubles(m - 1, base);
    if m > 1 {
      TotalDelayWithin(m - 1, base, cap, jitters);
      DelayRange(m - 1, base, cap, jitters[m - 1]);
    } else {
      assert base * Pow2(0) == base;
    }
  }

  /** The whole retry budget of `m` attempts waits at most 1.2 * base * (2^m - 2). */
  lemma TotalDelayBound(m: nat, base: int, cap: int, jitters: seq<real>)
    requires m >= 1 && |jitters| >= m && base >= 0
    requires forall i :: 0 <= i < m ==> IsJitter(jitters[i])
    ensures TotalDelay(m, base, cap, jitters) as real <= 1.2 * (base * Pow2(m) - 2 * base) as real
  {
    TotalDelayWithin(m, base, cap, jitters);
  }

  // -------------------------------------------------- the range is tight

  function MaxInt(x: int, y: int): int { if x < y then y else x }

  /** The shortest and the longest delay after truncation. */
  function Shortest(attempts: nat, base: int, cap: int): int {
    MaxInt(base, (0.8 * Capped(attempts, base, cap)).Floor)
  }

  function Longest(attempts: nat, base: int, cap: int): int {
    MaxInt(base, Ceil(1.2 * Capped(attempts, base, cap)) - 1)
  }

  lemma CappedNonnegative(a: nat, base: int, cap: int)
    requires base >= 0 && cap >= 0
    ensures Capped(a, base, cap) >= 0.0
  {
    ExponentialAtLeastBase(a, base);
  }

  lemma JitterBelow(d: real, u: real)
    requires d > 0.0 && IsJitter(u)
    ensures d + JitterOf(d, u) < 1.2 * d
  {
    var k := d * 0.2;
    assert JitterOf(d, u) == u * k;
    assert (1.0 - u) * k > 0.0;
  }

  lemma ShortestIsLower(a: nat, base: int, cap: int, u: real)
    requires base >= 0 && IsJitter(u)
    ensures Shortest(a, base, cap) <= Delay(a, base, cap, u)
  {
    JitteredRange(Capped(a, base, cap), base as real, u);
  }

  lemma DelayWithinExtremes(a: nat, base: int, cap: int, u: real)
    requires base >= 0 && cap >= 0 && IsJitter(u)
    ensures Shortest(a, base, cap) <= Delay(a, base, cap, u) <= Longest(a, base, cap)
  {
    var d := Capped(a, base, cap);
    CappedNonnegative(a, base, cap);
    JitteredRange(d, base as real, u);
    if d > 0.0 {
      JitterBelow(d, u);
    } else {
      assert JitterOf(d, u) == 0.0;
    }
  }

  lemma ShortestIsReached(a: nat, base: int, cap: int)
    requires base >= 0 && cap >= 0
    ensures IsJitter(-1.0) && Delay(a, base, cap, -1.0) == Shortest(a, base, cap)
  {
    var d := Capped(a, base, cap);
    CappedNonnegative(a, base, cap);
    assert JitterOf(d, -1.0) == -0.2 * d;
  }

  /** The jitter that brings `d` to `m`, if `m` is in its range. */
  lemma JitterTo(d: real, m: real) returns (u: real)
    requires d > 0.0 && 0.8 * d <= m < 1.2 * d
    ensures IsJitter(u) && d + JitterOf(d, u) == m
  {
    var k := d * 0.2;
    u := (m - d) / k;
    assert u * k == m - d;
    assert JitterOf(d, u) == u * k;
  }

  lemma LongestIsReached(a: nat, base: int, cap: int) returns (u: real)
    requires base >= 0 && cap >= 0
    ensures IsJitter(u) && Delay(a, base, cap, u) == Longest(a, base, cap)
  {
    var d := Capped(a, base, cap);
    CappedNonnegative(a, base, cap);
    var m := Ceil(1.2 * d) - 1;
    if d > 0.0 && m as real >= 0.8 * d {
      u := JitterTo(d, m as real);
    } else {
      u := -1.0;
      assert JitterOf(d, u) == -0.2 * d;
      DelayWithinExtremes(a, base, cap, u);
    }
  }

  // --------------------------------------------------- growth despite jitter

  /** Even the longest delay does not pass the shortest of the next attempt. */
  predicate RoomToGrow(a: nat, base: int, cap: int) {
    Longest(a, base, cap) <= Shortest(a + 1, base, cap)
  }

  /** The next delay is never shorter, whatever the two jitters, if and only if there
      is room to grow. */
  lemma BackoffMonotoneIffRoom(a: nat, base: int, cap: int)
    requires base >= 0 && cap >= 0
    ensures RoomToGrow(a, base, cap) <==>
            forall u, v :: IsJitter(u) && IsJitter(v) ==> Delay(a, base, cap, u) <= Delay(a + 1, base, cap, v)
  {
    if RoomToGrow(a, base, cap) {
      forall u, v | IsJitter(u) && IsJitter(v) ensures Delay(a, base, cap, u) <= Delay(a + 1, base, cap, v) {
        DelayWithinExtremes(a, base, cap, u);
        DelayWithinExtremes(a + 1, base, cap, v);
      }
    } else {
      var u := LongestIsReached(a, base, cap);
      ShortestIsReached(a + 1, base, cap);
      assert Delay(a, base, cap, u) > Delay(a + 1, base, cap, -1.0);
    }
  }

  /** Before truncation: the cap leaves the exponential room to grow by half, or the
      delay is pinned to the base anyway. */
  predicate ExactRoomToGrow(a: nat, base: int, cap: int) {
    || 1.2 * Capped(a, base, cap) <= base as real
    || 1.5 * Capped(a, base, cap) <= Capped(a + 1, base, cap)
  }

  lemma UncappedHasRoom(a: nat, base: int, cap: int)
    requires base >= 0 && base * Pow2(a + 1) <= cap
    ensures ExactRoomToGrow(a, base, cap) && RoomToGrow(a, base, cap)
  {
    ExponentialAtLeastBase(a, base);
    ExponentialDoubles(a, base);
  }

  lemma GrowsWithRoom(a: nat, base: int, cap: int, u: real, v: real)
    requires base >= 0 && cap >= 0 && IsJitter(u) && IsJitter(v)
    requires ExactRoomToGrow(a, base, cap)
    ensures ExactDelay(a, base, cap, u) <= ExactDelay(a + 1, base, cap, v)
    ensures Delay(a, base, cap, u) <= Delay(a + 1, base, cap, v)
  {
    var d, e := Capped(a, base, cap), Capped(a + 1, base, cap);
    JitteredRange(d, base as real, u);
    JitteredRange(e, base as real, v);
  }

  /** A jitter that lifts `d` above `next`, which is out of reach by less than a fifth. */
  lemma JitterAbove(d: real, next: real) returns (u: real)
    requires d > 0.0 && 1.2 * d > next
    ensures IsJitter(u) && d + JitterOf(d, u) > next
  {
    var k := d * 0.2;
    if d > next {
      u := 0.0;
    } else {
      var tie := (next - d) / k;
      assert tie * k == next - d;
      assert 0.0 <= tie < 1.0;
      u := (tie + 1.0) / 2.0;
      assert (u - tie) * k > 0.0;
    }
    assert JitterOf(d, u) == u * k;
  }

  /** Without room there are jitters for which the next delay is shorter. */
  lemma ShrinksWithoutRoom(a: nat, base: int, cap: int) returns (u: real, v: real)
    requires base >= 0 && cap >= 0
    requires !ExactRoomToGrow(a, base, cap)
    ensures IsJitter(u) && IsJitter(v)
    ensures ExactDelay(a, base, cap, u) > ExactDelay(a + 1, base, cap, v)
  {
    var d, e := Capped(a, base, cap), Capped(a + 1, base, cap);
    v := -1.0;
    assert JitterOf(e, v) == -0.2 * e;
    u := JitterAbove(d, Max(0.8 * e, base as real));
  }

  /** Before truncation, backoff is monotone despite jitter if and only if there is
      exact room to grow. */
  lemma ExactBackoffMonotoneIffRoom(a: nat, base: int, cap: int)
    requires base >= 0 && cap >= 0
    ensures ExactRoomToGrow(a, base, cap) <==>
            forall u, v :: IsJitter(u) && IsJitter(v) ==>
              ExactDelay(a, base, cap, u) <= ExactDelay(a + 1, base, cap, v)
  {
    if ExactRoomToGrow(a, base, cap) {
      forall u, v | IsJitter(u) && IsJitter(v)
        ensures ExactDelay(a, base, cap, u) <= ExactDelay(a + 1, base, cap, v)
      {
        GrowsWithRoom(a, base, cap, u, v);
      }
    } else {
      var u, v := ShrinksWithoutRoom(a, base, cap);
    }
  }
}
