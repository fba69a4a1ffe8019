/** The per-channel token bucket: the Lua script, `Allow` and `Wait`
    (internal/infrastructure/redis/rate_limiter.go).
    Token counts are reals, clock readings are integer milliseconds. */
module TokenBucket {
  import opened Entity
  import opened Reals

  /** `NewTokenBucketLimiter` asks for both values to be positive. */
  datatype Limits = Limits(rate: int, burst: int) {
    predicate Valid() { rate > 0 && burst > 0 }
  }

  /** The Redis hash of one channel; `Missing` is the key before the first call. */
  datatype Bucket = Missing | Bucket(tokens: real, lastRefill: int)

  datatype Reply = Reply(allowed: bool, waitMs: int)

  predicate Capped(l: Limits, b: Bucket) {
    b.Missing? || b.tokens <= l.burst as real
  }

  /** Tokens that accrue in `ms` milliseconds (negative if the clock went back). */
  function Added(l: Limits, ms: int): real {
    (ms as real / 1000.0) * l.rate as real
  }

  /** Tokens after the refill part of the script. */
  function Refilled(l: Limits, b: Bucket, now: int): real {
    if b.Missing? then l.burst as real
    else Min(b.tokens + Added(l, now - b.lastRefill), l.burst as real)
  }

  /** One execution of the script. */
  function Take(l: Limits, b: Bucket, now: int): (Bucket, Reply)
    requires l.Valid()
  {
    var tokens := Refilled(l, b, now);
    if tokens >= 1.0 then (Bucket(tokens - 1.0, now), Reply(true, 0))
    else (Bucket(tokens, now), Reply(false, Ceil((1.0 - tokens) / l.rate as real * 1000.0)))
  }

  // ------------------------------------------------------------ arithmetic

  lemma AddedSum(l: Limits, x: int, y: int)
    ensures Added(l, x + y) == Added(l, x) + Added(l, y)
  {
  }

  /** The rate is per second, the clock in milliseconds. */
  lemma AddedIs(l: Limits, ms: int)
    ensures Added(l, ms) == (ms * l.rate) as real / 1000.0
  {
  }

  lemma AddedMonotone(l: Limits, x: int, y: int)
    requires l.Valid() && x <= y
    ensures Added(l, x) <= Added(l, y)
  {
    AddedSum(l, x, y - x);
    assert (y - x) as real / 1000.0 >= 0.0;
  }

  lemma CeilIsLeast(x: real, n: int)
    ensures n >= Ceil(x) <==> n as real >= x
  {
  }

  /** Waiting `w` ms brings in at least `d` tokens exactly from `d / rate * 1000` on. */
  lemma AddedReaches(l: Limits, d: real, w: int)
    requires l.Valid()
    ensures Added(l, w) >= d <==> w as real >= d / l.rate as real * 1000.0
  {
    var r := l.rate as real;
    var q := d / r;
    assert q * r == d;
    var v := w as real / 1000.0;
    if v >= q { assert v * r >= q * r; }
    if v < q { assert v * r < q * r; }
  }

  // ------------------------------------------------------- one denied call

  /** `retry_after` of a denied call is at least 1 ms and is the exact least
      wait: with no other consumer, a call `w` ms later is served iff `w`
      has reached it. */
  lemma RetryAfterIsExact(l: Limits, b: Bucket, now: int, w: nat)
    requires l.Valid()
    requires !Take(l, b, now).1.allowed
    ensures Take(l, b, now).1.waitMs >= 1
    ensures Take(l, Take(l, b, now).0, now + w).1.allowed <==> w >= Take(l, b, now).1.waitMs
  {
    var tokens := Refilled(l, b, now);
    var exact := (1.0 - tokens) / l.rate as real * 1000.0;
    AddedReaches(l, 1.0 - tokens, w);
    AddedReaches(l, 1.0 - tokens, 0);
    CeilIsLeast(exact, w);
    CeilIsLeast(exact, 0);
    assert Added(l, 0) == 0.0;
  }

  // ------------------------------------------------------------ whole runs

  /** The bucket after calls at `times`. */
  function Final(l: Limits, b: Bucket, times: seq<int>): Bucket
    requires l.Valid()
    decreases times
  {
    if times == [] then b else Final(l, Take(l, b, times[0]).0, times[1..])
  }

  /** How many of the calls at `times` are served. */
  function Grants(l: Limits, b: Bucket, times: seq<int>): nat
    requires l.Valid()
    decreases times
  {
    if times == [] then 0
    else (if Take(l, b, times[0]).1.allowed then 1 else 0)
         + Grants(l, Take(l, b, times[0]).0, times[1..])
  }

  /** The answers given to the calls at `times`, in order. */
  function Answers(l: Limits, b: Bucket, times: seq<int>): (r: seq<bool>)
    requires l.Valid()
    ensures |r| == |times|
    decreases times
  {
    if times == [] then []
    else [Take(l, b, times[0]).1.allowed] + Answers(l, Take(l, b, times[0]).0, times[1..])
  }

  predicate Nondecreasing(times: seq<int>) {
    forall i, j :: 0 <= i < j < |times| ==> times[i] <= times[j]
  }

  lemma {:induction false} RunSplits(l: Limits, b: Bucket, xs: seq<int>, ys: seq<int>)
    requires l.Valid()
    decreases xs
    ensures Final(l, b, xs + ys) == Final(l, Final(l, b, xs), ys)
    ensures Grants(l, b, xs + ys) == Grants(l, b, xs) + Grants(l, Final(l, b, xs), ys)
  {
    if xs == [] {
      assert xs + ys == ys;
    } else {
      assert (xs + ys)[1..] == xs[1..] + ys;
      RunSplits(l, Take(l, b, xs[0]).0, xs[1..], ys);
    }
  }

  lemma {:induction false} FinalIsCapped(l: Limits, b: Bucket, times: seq<int>)
    requires l.Valid() && Capped(l, b)
    ensures Capped(l, Final(l, b, times))
    decreases times
  {
    if times != [] { FinalIsCapped(l, Take(l, b, times[0]).0, times[1..]); }
  }

  // --------------------------------------------------------- window bound

  lemma {:induction false} GrantsUpTo(l: Limits, b: Bucket, times: seq<int>, hi: int)
    requires l.Valid() && b.Bucket?
    requires forall t :: t in times ==> t <= hi
    ensures Grants(l, b, times) as real <= Max(0.0, b.tokens + Added(l, hi - b.lastRefill))
    decreases times
  {
    if times != [] {
      var t := times[0];
      assert t in times;
      var next := Take(l, b, t).0;
      assert forall u :: u in times[1..] ==> u in times;
      GrantsUpTo(l, next, times[1..], hi);
      AddedSum(l, t - b.lastRefill, hi - t);
      AddedMonotone(l, 0, hi - t);
    }
  }

  /** Whatever happened before, the calls falling into a window of `span` ms are
      served at most `burst + rate * span / 1000` times. The order of the clock
      readings inside the window does not matter. */
  lemma WindowBound(l: Limits, b: Bucket, before: seq<int>, inside: seq<int>, lo: int, span: nat)
    requires l.Valid() && Capped(l, b)
    requires forall t :: t in inside ==> lo <= t <= lo + span
    ensures (Grants(l, b, before + inside) - Grants(l, b, before)) as real
         <= l.burst as real + (span * l.rate) as real / 1000.0
  {
    RunSplits(l, b, before, inside);
    FinalIsCapped(l, b, before);
    WindowFromCapped(l, Final(l, b, before), inside, lo, span);
  }

  lemma WindowFromCapped(l: Limits, b: Bucket, inside: seq<int>, lo: int, span: nat)
    requires l.Valid() && Capped(l, b)
    requires forall t :: t in inside ==> lo <= t <= lo + span
    ensures Grants(l, b, inside) as real <= l.burst as real + (span * l.rate) as real / 1000.0
  {
    AddedMonotone(l, 0, span);
    AddedIs(l, span);
    if inside != [] {
      var t := inside[0];
      assert t in inside;
      assert forall u :: u in inside[1..] ==> u in inside;
      GrantsUpTo(l, Take(l, b, t).0, inside[1..], lo + span);
      AddedMonotone(l, 0, lo + span - t);
      AddedMonotone(l, lo + span - t, span);
    }
  }

  /** A bucket that was filled up to `tokens` at `last` has, at `now`, what has accrued
      since, up to the burst; a call takes one token if there is one, and the clock
      reading is kept either way, even if the clock went back. */
  lemma TakeMeans(l: Limits, tokens: real, last: int, now: int)
    requires l.Valid()
    ensures var accrued := tokens + ((now - last) * l.rate) as real / 1000.0;
      var have := if accrued > l.burst as real then l.burst as real else accrued;
      var (b, reply) := Take(l, Bucket(tokens, last), now);
      && (reply.allowed <==> have >= 1.0)
      && b == Bucket(if have >= 1.0 then have - 1.0 else have, now)
      && (reply.allowed ==> reply.waitMs == 0)
  {
    AddedIs(l, now - last);
  }

  // ----------------------------------------------- a channel starts full

  lemma FirstCall(l: Limits, now: int)
    requires l.Valid()
    ensures Take(l, Missing, now) == (Bucket(l.burst as real - 1.0, now), Reply(true, 0))
  {
  }

  function Least(m: int, n: int): int { if m < n then m else n }

  /** While `m` tokens are left the next `m` calls are served, if the clock does not
      go back. */
  lemma {:induction false} TokensAreSpendable(l: Limits, b: Bucket, times: seq<int>, m: nat)
    requires l.Valid() && b.Bucket? && m as real <= b.tokens && m <= l.burst
    requires Nondecreasing([b.lastRefill] + times)
    ensures Grants(l, b, times) >= Least(|times|, m)
    decreases times
  {
    if times != [] && m > 0 {
      TailNondecreasing(b.lastRefill, times);
      AddedMonotone(l, 0, times[0] - b.lastRefill);
      assert Added(l, 0) == 0.0;
      TokensAreSpendable(l, Take(l, b, times[0]).0, times[1..], m - 1);
    }
  }

  /** A new channel serves its first `burst` calls, whenever they come. */
  lemma BurstIsServed(l: Limits, times: seq<int>)
    requires l.Valid() && Nondecreasing(times)
    ensures Grants(l, Missing, times) >= Least(|times|, l.burst)
  {
    if times != [] {
      FirstCall(l, times[0]);
      assert [times[0]] + times[1..] == times;
      TokensAreSpendable(l, Take(l, Missing, times[0]).0, times[1..], l.burst - 1);
    }
  }

  /** And at one instant no more than these. */
  lemma BurstIsServedExactly(l: Limits, now: int, n: nat)
    requires l.Valid()
    ensures Grants(l, Missing, seq(n, i => now)) == Least(n, l.burst)
  {
    var times := seq(n, i => now);
    BurstIsServed(l, times);
    WindowFromCapped(l, Missing, times, now, 0);
    AtMostOneEach(l, Missing, times);
  }

  lemma {:induction false} AtMostOneEach(l: Limits, b: Bucket, times: seq<int>)
    requires l.Valid()
    ensures Grants(l, b, times) <= |times|
    decreases times
  {
    if times != [] { AtMostOneEach(l, Take(l, b, times[0]).0, times[1..]); }
  }

  // ----------------------------------------------------------- optimality

  /** A rival policy on the same bucket: refreshed like the script refreshes it,
      it takes a token only when one is there and the policy wants it. */
  function PolicyTake(l: Limits, b: Bucket, now: int, wants: bool): (Bucket, bool)
    requires l.Valid()
  {
    var tokens := Refilled(l, b, now);
    if tokens >= 1.0 && wants then (Bucket(tokens - 1.0, now), true)
    else (Bucket(tokens, now), false)
  }

  function PolicyGrants(l: Limits, b: Bucket, times: seq<int>, wants: seq<bool>): nat
    requires l.Valid() && |wants| == |times|
    decreases times
  {
    if times == [] then 0
    else (if PolicyTake(l, b, times[0], wants[0]).1 then 1 else 0)
         + PolicyGrants(l, PolicyTake(l, b, times[0], wants[0]).0, times[1..], wants[1..])
  }

  /** `lead` is how many more calls the script has served so far. */
  lemma {:induction false} ScriptStaysAhead(l: Limits, g: Bucket, p: Bucket, lead: nat,
                                            times: seq<int>, wants: seq<bool>)
    requires l.Valid() && |wants| == |times|
    requires g.Bucket? && p.Bucket? && g.lastRefill == p.lastRefill
    requires p.tokens - g.tokens <= lead as real
    ensures PolicyGrants(l, p, times, wants) <= lead + Grants(l, g, times)
    decreases times
  {
    if times != [] {
      var (g', reply) := Take(l, g, times[0]);
      var (p', taken) := PolicyTake(l, p, times[0], wants[0]);
      var lead' := lead + (if reply.allowed then 1 else 0) - (if taken then 1 else 0);
      if !reply.allowed && taken {
        // The policy has more tokens left, so it is behind in served calls.
        assert lead as real > 0.0;
      }
      ScriptStaysAhead(l, g', p', lead', times[1..], wants[1..]);
    }
  }

  /** The script is optimal: after every prefix of every request sequence, no
      policy on the same bucket has served more calls. */
  lemma ScriptIsOptimal(l: Limits, b: Bucket, times: seq<int>, wants: seq<bool>, k: nat)
    requires l.Valid() && |wants| == |times| && k <= |times|
    ensures PolicyGrants(l, b, times[..k], wants[..k]) <= Grants(l, b, times[..k])
  {
    var ts, ws := times[..k], wants[..k];
    if k > 0 {
      var (g', reply) := Take(l, b, ts[0]);
      var (p', taken) := PolicyTake(l, b, ts[0], ws[0]);
      ScriptStaysAhead(l, g', p', if reply.allowed && !taken then 1 else 0, ts[1..], ws[1..]);
    }
  }

  // ------------------------------------------------------ eager refinement

  /** A bucket that is topped up once per millisecond. */
  function EagerTick(l: Limits, tokens: real): real {
    Min(tokens + l.rate as real / 1000.0, l.burst as real)
  }

  function EagerTicks(l: Limits, tokens: real, ms: nat): real {
    if ms == 0 then tokens else EagerTick(l, EagerTicks(l, tokens, ms - 1))
  }

  /** The eager bucket answering calls at `times`, starting at clock `now`. */
  function EagerAnswers(l: Limits, tokens: real, now: int, times: seq<int>): seq<bool>
    requires l.Valid() && Nondecreasing([now] + times)
    decreases times
  {
    if times == [] then []
    else
      assert [now] + times == [now, times[0]] + times[1..];
      assert ([now] + times)[0] <= ([now] + times)[1];
      assert Nondecreasing([times[0]] + times[1..]) by { TailNondecreasing(now, times); }
      var have := EagerTicks(l, tokens, times[0] - now);
      [have >= 1.0]
      + EagerAnswers(l, if have >= 1.0 then have - 1.0 else have, times[0], times[1..])
  }

  lemma TailNondecreasing(now: int, times: seq<int>)
    requires times != [] && Nondecreasing([now] + times)
    ensures now <= times[0] && Nondecreasing([times[0]] + times[1..])
  {
    var all := [now] + times;
    assert [times[0]] + times[1..] == times;
    assert all[0] == now && all[1] == times[0];
    forall i, j | 0 <= i < j < |times| ensures times[i] <= times[j] {
      assert all[i + 1] == times[i] && all[j + 1] == times[j];
    }
  }

  lemma {:induction false} EagerEqualsLazy(l: Limits, tokens: real, ms: nat)
    requires l.Valid() && tokens <= l.burst as real
    ensures EagerTicks(l, tokens, ms) == Min(tokens + Added(l, ms), l.burst as real)
  {
    AddedMonotone(l, 0, 1);
    AddedIs(l, 1);
    if ms > 0 {
      EagerEqualsLazy(l, tokens, ms - 1);
      AddedSum(l, ms - 1, 1);
    } else {
      assert Added(l, 0) == 0.0;
    }
  }

  /** Under a nondecreasing clock the lazy script answers every call exactly as
      the bucket that is topped up every millisecond. */
  lemma {:induction false} LazyRefinesEager(l: Limits, tokens: real, now: int, times: seq<int>)
    requires l.Valid() && tokens <= l.burst as real
    requires Nondecreasing([now] + times)
    ensures Answers(l, Bucket(tokens, now), times) == EagerAnswers(l, tokens, now, times)
    decreases times
  {
    if times != [] {
      TailNondecreasing(now, times);
      EagerEqualsLazy(l, tokens, times[0] - now);
      var next := Take(l, Bucket(tokens, now), times[0]).0;
      LazyRefinesEager(l, next.tokens, times[0], times[1..]);
    }
  }

  // -------------------------------------------------------- denied erasure

  /** The calls of `times` that are served. */
  function Served(l: Limits, b: Bucket, times: seq<int>): seq<int>
    requires l.Valid()
    decreases times
  {
    if times == [] then []
    else (if Take(l, b, times[0]).1.allowed then [times[0]] else [])
         + Served(l, Take(l, b, times[0]).0, times[1..])
  }

  /** Two buckets that hold the same number of tokens from `now` on. */
  ghost predicate SameFrom(l: Limits, b: Bucket, c: Bucket, now: int) {
    && b.Bucket? && c.Bucket? && b.lastRefill <= now && c.lastRefill <= now
    && Capped(l, b) && Capped(l, c)
    && Refilled(l, b, now) == Refilled(l, c, now)
  }

  lemma RefillIsGradual(l: Limits, b: Bucket, t: int, u: int)
    requires l.Valid() && b.Bucket? && b.lastRefill <= t <= u
    ensures Refilled(l, b, u) == Min(Refilled(l, b, t) + Added(l, u - t), l.burst as real)
  {
    AddedSum(l, t - b.lastRefill, u - t);
    AddedMonotone(l, 0, u - t);
  }

  /** A served call keeps two equal buckets equal; a denied one may be skipped. */
  lemma SameAfterCall(l: Limits, b: Bucket, c: Bucket, now: int, t: int)
    requires l.Valid() && SameFrom(l, b, c, now) && now <= t
    ensures Take(l, b, t).1 == Take(l, c, t).1
    ensures Take(l, b, t).1.allowed ==> SameFrom(l, Take(l, b, t).0, Take(l, c, t).0, t)
    ensures !Take(l, b, t).1.allowed ==> SameFrom(l, Take(l, b, t).0, c, t)
  {
    RefillIsGradual(l, b, now, t);
    RefillIsGradual(l, c, now, t);
    assert Added(l, 0) == 0.0;
  }

  lemma {:induction false} DeniedLeaveNoTrace(l: Limits, b: Bucket, c: Bucket, now: int, times: seq<int>, u: int)
    requires l.Valid() && SameFrom(l, b, c, now) && Nondecreasing([now] + times)
    requires now <= u && forall t :: t in times ==> t <= u
    ensures Answers(l, c, Served(l, b, times)) == seq(|Served(l, b, times)|, i => true)
    ensures |Served(l, b, times)| == Grants(l, b, times)
    ensures SameFrom(l, Final(l, b, times), Final(l, c, Served(l, b, times)), u)
    decreases times
  {
    if times == [] {
      RefillIsGradual(l, b, now, u);
      RefillIsGradual(l, c, now, u);
    } else {
      var t := times[0];
      assert t in times;
      assert forall v :: v in times[1..] ==> v in times;
      TailNondecreasing(now, times);
      SameAfterCall(l, b, c, now, t);
      var (b', reply) := Take(l, b, t);
      var rest := Served(l, b', times[1..]);
      if reply.allowed {
        DeniedLeaveNoTrace(l, b', Take(l, c, t).0, t, times[1..], u);
        assert Served(l, b, times) == [t] + rest && ([t] + rest)[1..] == rest;
      } else {
        DeniedLeaveNoTrace(l, b', c, t, times[1..], u);
        assert Served(l, b, times) == rest;
      }
    }
  }

  /** Erasing every denied call from a run under a nondecreasing clock changes no
      outcome: what is left is served in full, and any later call `next` is
      answered alike, waiting time included. */
  lemma DeniedCallsAreErasable(l: Limits, times: seq<int>, next: int)
    requires l.Valid() && Nondecreasing(times + [next])
    ensures Answers(l, Missing, Served(l, Missing, times)) == seq(Grants(l, Missing, times), i => true)
    ensures Take(l, Final(l, Missing, times), next).1
         == Take(l, Final(l, Missing, Served(l, Missing, times)), next).1
  {
    if times != [] {
      var t := times[0];
      var all := times + [next];
      forall i, j | 0 <= i < j < |times| ensures times[i] <= times[j] {
        assert all[i] == times[i] && all[j] == times[j];
      }
      assert [t] + times[1..] == times;
      assert t in times;
      assert forall v :: v in times[1..] ==> v in times;
      forall v | v in times ensures v <= next {
        var i :| 0 <= i < |times| && times[i] == v;
        assert all[i] == v && all[|times|] == next;
      }
      var b := Take(l, Missing, t).0;
      assert Added(l, 0) == 0.0;
      DeniedLeaveNoTrace(l, b, b, t, times[1..], next);
      var rest := Served(l, b, times[1..]);
      assert Served(l, Missing, times) == [t] + rest && ([t] + rest)[1..] == rest;
      SameAfterCall(l, Final(l, b, times[1..]), Final(l, b, rest), next, next);
    }
  }

  // ------------------------------------------------------------- the class

  /** Each channel has its own bucket under its own key. */
  class TokenBucketLimiter {
    const limits: Limits
    var buckets: map<Channel, Bucket>

    ghost predicate Valid()
      reads this
    {
      && limits.Valid()
      && forall ch :: ch in buckets ==> Capped(limits, buckets[ch])
    }

    function BucketOf(ch: Channel): Bucket
      reads this
    {
      if ch in buckets then buckets[ch] else Missing
    }

    constructor (limits: Limits)
      requires limits.Valid()
      ensures Valid() && this.limits == limits && buckets == map[]
    {
      this.limits := limits;
      buckets := map[];
    }

    /** Runs the script once at clock `nowMs`. */
    method Allow(ch: Channel, nowMs: int) returns (allowed: bool, retryAfter: int)
      requires Valid()
      modifies this
      ensures Valid()
      ensures buckets == old(buckets)[ch := Take(limits, old(BucketOf(ch)), nowMs).0]
      ensures Reply(allowed, retryAfter) == Take(limits, old(BucketOf(ch)), nowMs).1
      ensures ch !in old(buckets) ==>
        allowed && buckets == old(buckets)[ch := Bucket(limits.burst as real - 1.0, nowMs)]
    {
      var data := BucketOf(ch);
      var tokens: real, lastRefill: int;
      if data.Missing? {
        tokens := limits.burst as real;
        lastRefill := nowMs;
      } else {
        tokens := data.tokens;
        lastRefill := data.lastRefill;
      }
      var elapsedSec := (nowMs - lastRefill) as real / 1000.0;
      var added := elapsedSec * limits.rate as real;
      assert added == Added(limits, nowMs - lastRefill);
      tokens := Min(tokens + added, limits.burst as real);
      assert tokens == Refilled(limits, data, nowMs);
      lastRefill := nowMs;
      if tokens >= 1.0 {
        tokens := tokens - 1.0;
        buckets := buckets[ch := Bucket(tokens, lastRefill)];
        return true, 0;
      } else {
        var deficit := 1.0 - tokens;
        var waitMs := (deficit / limits.rate as real) * 1000.0;
        buckets := buckets[ch := Bucket(tokens, lastRefill)];
        return false, Ceil(waitMs);
      }
    }

    /** The other consumers of a channel, calling at the given times. */
    method RivalCalls(ch: Channel, times: seq<int>)
      requires Valid()
      modifies this
      ensures Valid()
      ensures BucketOf(ch) == Final(limits, old(BucketOf(ch)), times)
      ensures forall c :: c != ch ==> BucketOf(c) == old(BucketOf(c))
    {
      var i := 0;
      while i < |times|
        invariant 0 <= i <= |times|
        invariant Valid()
        invariant Final(limits, BucketOf(ch), times[i..]) == Final(limits, old(BucketOf(ch)), times)
        invariant forall c :: c != ch ==> BucketOf(c) == old(BucketOf(c))
      {
        assert times[i..][0] == times[i] && times[i..][1..] == times[i + 1..];
        var _, _ := Allow(ch, times[i]);
        i := i + 1;
      }
    }

    /** One call of `Allow`, and the sleep that follows a refusal. */
    method AllowOrSleep(ch: Channel, now: int, late: nat, rivals: seq<int>) returns (allowed: bool, wake: int)
      requires Valid()
      modifies this
      ensures Valid() && allowed == Take(limits, old(BucketOf(ch)), now).1.allowed
      ensures var (b, reply) := Take(limits, old(BucketOf(ch)), now);
        && BucketOf(ch) == (if allowed then b else Final(limits, b, rivals))
        && (!allowed ==> wake == now + Wake(reply) + late)
      ensures forall c :: c != ch ==> BucketOf(c) == old(BucketOf(c))
    {
      var retryAfter;
      allowed, retryAfter := Allow(ch, now);
      if allowed { return true, now; }
      if retryAfter < 1 { retryAfter := 1; }
      wake := now + retryAfter + late;
      RivalCalls(ch, rivals);
    }

    /** Blocks until a token is granted or the context is cancelled at
        `cancelAt`. Timer number `k` fires `late(k)` ms after it is due, and
        before that the other consumers call at the times `rivals(k)`.
        `mine` are the times of its own executions of the script, of which all but a
        granted last one are refused and slept off, and `calls` is their number. */
    method Wait(ch: Channel, start: int, cancelAt: int, late: nat -> nat, rivals: nat -> seq<int>)
      returns (granted: bool, calls: nat, now: int, ghost mine: seq<int>)
      requires Valid()
      modifies this
      ensures Valid()
      ensures calls == |mine| >= 1 && mine[0] == start && now >= start
      ensures granted ==> mine[calls - 1] == now && !RefusedAt(limits, old(BucketOf(ch)), mine, rivals, calls - 1)
      ensures granted ==>
        && BucketOf(ch) == Final(limits, old(BucketOf(ch)), Executions(mine[..calls - 1], rivals) + [now])
        && BucketOf(ch).Bucket? && BucketOf(ch).tokens >= 0.0 && BucketOf(ch).lastRefill == now
      ensures !granted ==>
        now > cancelAt && BucketOf(ch) == Final(limits, old(BucketOf(ch)), Executions(mine, rivals))
      ensures SleptOff(limits, old(BucketOf(ch)), if granted then mine[..calls - 1] else mine, rivals, now)
      ensures forall c :: c != ch ==> BucketOf(c) == old(BucketOf(c))
      // A lone waiter is served by its second call at the latest.
      ensures (forall k :: rivals(k) == []) ==> calls <= 2
      ensures (forall k :: rivals(k) == []) && granted ==>
                (calls == 1 <==> Take(limits, old(BucketOf(ch)), start).1.allowed)
    {
      now := start;
      calls, mine := 0, [];
      ghost var first := BucketOf(ch);
      while true
        invariant Valid() && calls == |mine|
        invariant if calls == 0 then now == start else mine[0] == start < now <= cancelAt
        invariant BucketOf(ch) == Final(limits, first, Executions(mine, rivals))
        invariant SleptOff(limits, first, mine, rivals, now)
        invariant forall c :: c != ch ==> BucketOf(c) == old(BucketOf(c))
        decreases cancelAt - now, if calls == 0 then 1 else 0
      {
        ghost var before, refused := BucketOf(ch), mine;
        var allowed, wake := AllowOrSleep(ch, now, late(calls), rivals(calls));
        OneMoreCall(limits, first, before, refused, now, rivals);
        LoneWaiter(limits, first, refused, rivals, now);
        mine := refused + [now];
        calls := calls + 1;
        if allowed {
          assert mine[..calls - 1] == refused;
          return true, calls, now, mine;
        }
        SleptOffNext(limits, first, refused, rivals, now, wake);
        LoneWaiter(limits, first, mine, rivals, wake);
        now := wake;
        if now > cancelAt { return false, calls, now, mine; }
      }
    }
  }

  /** The executions of the script on a channel while someone waits: each call of the
      waiter is followed by those of its rivals. */
  function Executions(mine: seq<int>, rivals: nat -> seq<int>): seq<int> {
    if mine == [] then []
    else
      var n := |mine| - 1;
      Executions(mine[..n], rivals) + [mine[n]] + rivals(n)
  }

  /** The answer to the waiter's call number `k`. */
  function ReplyAt(l: Limits, b: Bucket, mine: seq<int>, rivals: nat -> seq<int>, k: nat): Reply
    requires l.Valid() && k < |mine|
  {
    Take(l, Final(l, b, Executions(mine[..k], rivals)), mine[k]).1
  }

  predicate RefusedAt(l: Limits, b: Bucket, mine: seq<int>, rivals: nat -> seq<int>, k: nat)
    requires l.Valid() && k < |mine|
  {
    !ReplyAt(l, b, mine, rivals, k).allowed
  }

  /** All calls so far have been refused, and after each one the waiter has slept as
      long as it was told to, at least 1 ms. */
  predicate SleptOff(l: Limits, b: Bucket, mine: seq<int>, rivals: nat -> seq<int>, now: int)
    requires l.Valid()
  {
    forall k {:trigger RefusedAt(l, b, mine, rivals, k)} :: 0 <= k < |mine| ==>
      && RefusedAt(l, b, mine, rivals, k)
      && mine[k] + Wake(ReplyAt(l, b, mine, rivals, k)) <= if k + 1 < |mine| then mine[k + 1] else now
  }

  function Wake(r: Reply): int { if r.waitMs < 1 then 1 else r.waitMs }

  lemma OneMoreCall(l: Limits, first: Bucket, before: Bucket, mine: seq<int>, now: int, rivals: nat -> seq<int>)
    requires l.Valid() && before == Final(l, first, Executions(mine, rivals))
    ensures (mine + [now])[..|mine|] == mine
    ensures Final(l, first, Executions(mine, rivals) + [now]) == Take(l, before, now).0
    ensures Final(l, first, Executions(mine + [now], rivals))
         == Final(l, Take(l, before, now).0, rivals(|mine|))
    ensures ReplyAt(l, first, mine + [now], rivals, |mine|) == Take(l, before, now).1
  {
    assert (mine + [now])[..|mine|] == mine;
    RunSplits(l, first, Executions(mine, rivals), [now]);
    RunSplits(l, first, Executions(mine, rivals) + [now], rivals(|mine|));
  }

  lemma SleptOffNext(l: Limits, b: Bucket, mine: seq<int>, rivals: nat -> seq<int>, now: int, wake: int)
    requires l.Valid() && SleptOff(l, b, mine, rivals, now)
    requires RefusedAt(l, b, mine + [now], rivals, |mine|)
    requires now + Wake(ReplyAt(l, b, mine + [now], rivals, |mine|)) <= wake
    ensures SleptOff(l, b, mine + [now], rivals, wake)
  {
    var all := mine + [now];
    forall k | 0 <= k < |all|
      ensures RefusedAt(l, b, all, rivals, k)
      ensures all[k] + Wake(ReplyAt(l, b, all, rivals, k)) <= if k + 1 < |all| then all[k + 1] else wake
    {
      if k < |mine| {
        assert all[..k] == mine[..k];
        assert RefusedAt(l, b, mine, rivals, k);
      }
    }
  }

  /** With no rivals a waiter that was told how long to wait is refused only once. */
  lemma LoneWaiter(l: Limits, b: Bucket, refused: seq<int>, rivals: nat -> seq<int>, now: int)
    requires l.Valid() && SleptOff(l, b, refused, rivals, now)
    ensures (forall k :: rivals(k) == []) ==> |refused| <= 1
    ensures refused != [] ==> !Take(l, b, refused[0]).1.allowed
  {
    if refused != [] {
      assert refused[..0] == [] && RefusedAt(l, b, refused, rivals, 0);
    }
    if |refused| > 1 && forall k :: rivals(k) == [] {
      assert refused[..1] == [refused[0]] && RefusedAt(l, b, refused, rivals, 1);
      assert [refused[0]][..0] == [];
      assert Executions([refused[0]], rivals) == [refused[0]];
      assert Final(l, b, [refused[0]]) == Take(l, b, refused[0]).0;
      RetryAfterIsExact(l, b, refused[0], refused[1] - refused[0]);
      assert false;
    }
  }
}
