/** The rate limit of a channel as the provider sees it: limiter, workers and pool
    together (internal/infrastructure/redis/rate_limiter.go,
    internal/worker/processor.go, internal/worker/pool.go). */
module Throughput {
  import opened Wrappers
  import opened Entity
  import opened Lifecycle
  import opened LifecycleInvariant
  import opened LifecycleTransfers
  import opened LifecycleTokens
  import opened LifecycleSafety
  import TokenBucket

  /** A channel and a window of the millisecond clock. */
  datatype Window = Window(channel: Channel, lo: int, hi: int) {
    predicate Covers(ch: Channel, ms: int) { ch == channel && lo <= ms <= hi }
  }

  /** Tokens granted in the window. */
  function GrantsIn(h: History, v: Window): nat {
    match h
    case Start => 0
    case Then(past, e) =>
      GrantsIn(past, v) + if e.Asked? && e.allowed && v.Covers(e.channel, e.atMs) then 1 else 0
  }

  /** `Send` calls made in the window. */
  function SendsIn(h: History, v: Window): nat {
    match h
    case Start => 0
    case Then(past, e) =>
      SendsIn(past, v) + if e.SendCalled? && v.Covers(e.channel, Millis(e.at)) then 1 else 0
  }

  /** Workers with an unspent token from inside the window. */
  function InHand(h: History, v: Window): set<Pid> {
    match h
    case Start => {}
    case Then(past, e) =>
      if e.Asked? && e.allowed && v.Covers(e.channel, e.atMs) then InHand(past, v) + {e.worker}
      else if e.SendCalled? && v.Covers(e.channel, Millis(e.at)) then InHand(past, v) - {e.worker}
      else InHand(past, v)
  }

  /** Workers that have made a call in the window with a token from before it. */
  function Early(h: History, v: Window): set<Pid> {
    match h
    case Start => {}
    case Then(past, e) =>
      if e.SendCalled? && v.Covers(e.channel, Millis(e.at)) && e.worker !in InHand(past, v)
      then Early(past, v) + {e.worker}
      else Early(past, v)
  }

  /** The workers of a channel. */
  function WorkersOn(s: State, ch: Channel): set<Pid> {
    set w | w in s.workers && s.workers[w].key.channel == ch
  }

  // ------------------------------------------------------------ the tokens

  /** What is left in the bucket and what was granted in the window together stay
      below the burst plus the refill. */
  ghost predicate BucketPays(s: State, v: Window) {
    var l, b, grants := s.cfg.limits, BucketOf(s, v.channel), GrantsIn(s.log, v);
    && TokenBucket.Capped(l, b)
    && (b.Bucket? ==> b.lastRefill <= Millis(s.now))
    && (grants > 0 ==> b.Bucket? && b.lastRefill >= v.lo)
    && (b.Bucket? && v.lo <= b.lastRefill <= v.hi ==>
          b.tokens + grants as real <= l.burst as real + TokenBucket.Added(l, b.lastRefill - v.lo))
    && grants as real <= l.burst as real + TokenBucket.Added(l, v.hi - v.lo)
  }

  /** One execution of the script on the bucket of the window's channel. */
  lemma AskPays(l: TokenBucket.Limits, b: TokenBucket.Bucket, now: int, grants: nat, lo: int, hi: int)
    requires l.Valid() && TokenBucket.Capped(l, b) && lo <= now <= hi
    requires b.Bucket? ==> b.lastRefill <= now
    requires grants > 0 ==> b.Bucket? && b.lastRefill >= lo
    requires b.Bucket? && lo <= b.lastRefill ==>
               b.tokens + grants as real <= l.burst as real + TokenBucket.Added(l, b.lastRefill - lo)
    requires grants as real <= l.burst as real + TokenBucket.Added(l, hi - lo)
    ensures var (b', reply) := TokenBucket.Take(l, b, now);
      var grants' := grants + if reply.allowed then 1 else 0;
      && b'.tokens + grants' as real <= l.burst as real + TokenBucket.Added(l, now - lo)
      && grants' as real <= l.burst as real + TokenBucket.Added(l, hi - lo)
  {
    TokenBucket.AddedMonotone(l, 0, now - lo);
    TokenBucket.AddedMonotone(l, now - lo, hi - lo);
  }

  // ----------------------------------------------------------- the workers

  /** Every send of the window is paid by a grant of the window, or is the one that
      its worker makes with a token from before. */
  ghost predicate WorkersPay(s: State, v: Window) {
    && SendsIn(s.log, v) + |InHand(s.log, v)| <= GrantsIn(s.log, v) + |Early(s.log, v)|
    && Early(s.log, v) <= WorkersOn(s, v.channel)
    && (Early(s.log, v) != {} ==> v.lo <= Millis(s.now))
    && (Millis(s.now) <= v.hi ==>
          forall w :: w in s.workers && Pc(s, w).Granted? && w in Early(s.log, v) ==> w in InHand(s.log, v))
  }

  /** The limiter's script runs, whether or not its answer arrives. */
  predicate RunsScript(step: Step) { step.Ask? && !step.o.Refused? }

  /** Steps other than these and `CallSend` neither touch buckets nor hand out or
      spend tokens. */
  lemma ApiStepsBuckets(s: State, step: Step)
    requires Enabled(s, step) && !ByWorker(step)
    ensures Apply(s, step).cfg == s.cfg && Apply(s, step).buckets == s.buckets && s.now <= Apply(s, step).now
  {
    ApiStepsLeaveClock(s, step);
  }

  lemma ApiStepsLeaveClock(s: State, step: Step)
    requires Enabled(s, step) && !ByWorker(step)
    ensures Apply(s, step).cfg == s.cfg && s.now <= Apply(s, step).now
  {
  }

  lemma WorkerStepsBuckets(s: State, step: Step)
    requires Enabled(s, step) && !RunsScript(step) && ByWorker(step)
    ensures Apply(s, step).cfg == s.cfg && Apply(s, step).buckets == s.buckets && s.now <= Apply(s, step).now
  {
    WorkersLeaveProcesses(s, step);
  }

  lemma OtherStepsLog(s: State, step: Step)
    requires Enabled(s, step) && !RunsScript(step) && !step.CallSend?
    ensures step.SendReturns? ==>
      Apply(s, step).log == Then(s.log, SendReturned(step.w, Pc(s, step.w).msg.notification.id, step.reply))
    ensures !step.SendReturns? ==> Apply(s, step).log == s.log
  {
  }

  /** Steps that hand out no token leave every worker at its stream and grant nothing. */
  lemma OtherStepsGrantNothing(s: State, step: Step, w: Pid)
    requires Enabled(s, step) && !RunsScript(step)
    ensures w in s.workers <==> w in Apply(s, step).workers
    ensures w in s.workers ==>
      && Apply(s, step).workers[w].key == s.workers[w].key
      && (Pc(Apply(s, step), w).Granted? ==> Pc(Apply(s, step), w) == Pc(s, w))
  {
    if ByWorker(step) { WorkersKeepToThemselves(s, step); } else { ApiStepsLeaveWorkers(s, step); }
  }

  lemma OtherStepsPay(s: State, step: Step, v: Window)
    requires Enabled(s, step) && !RunsScript(step) && !step.CallSend?
    requires BucketPays(s, v) && WorkersPay(s, v)
    ensures BucketPays(Apply(s, step), v) && WorkersPay(Apply(s, step), v)
  {
    if ByWorker(step) { WorkerStepsBuckets(s, step); } else { ApiStepsBuckets(s, step); }
    OtherStepsLog(s, step);
    forall w { OtherStepsGrantNothing(s, step, w); }
    SamePays(s, Apply(s, step), v);
  }

  lemma SamePays(s: State, s': State, v: Window)
    requires BucketPays(s, v) && WorkersPay(s, v)
    requires s'.cfg == s.cfg && s'.buckets == s.buckets && s.now <= s'.now
    requires s'.log == s.log || (s'.log.Then? && s'.log.past == s.log && s'.log.last.SendReturned?)
    requires forall w :: w in s.workers <==> w in s'.workers
    requires forall w :: w in s.workers ==>
               && s'.workers[w].key == s.workers[w].key
               && (Pc(s', w).Granted? ==> Pc(s', w) == Pc(s, w))
    ensures BucketPays(s', v) && WorkersPay(s', v)
  {
    forall w ensures w in WorkersOn(s', v.channel) <==> w in WorkersOn(s, v.channel) {
      assert w in s.workers <==> w in s'.workers;
    }
    assert WorkersOn(s', v.channel) == WorkersOn(s, v.channel);
  }

  lemma AskEffect(s: State, w: Pid, o: Outcome, v: Window)
    requires Enabled(s, Ask(w, o)) && !o.Refused?
    ensures var (s', ch, now) := (Apply(s, Ask(w, o)), Pc(s, w).msg.notification.channel, Millis(s.now));
      var (b, reply) := TokenBucket.Take(s.cfg.limits, BucketOf(s, ch), now);
      && s'.cfg == s.cfg && s'.now == s.now
      && (ch != v.channel ==> BucketOf(s', v.channel) == BucketOf(s, v.channel))
      && (ch == v.channel ==> BucketOf(s', v.channel) == b)
      && GrantsIn(s'.log, v) == GrantsIn(s.log, v) + if reply.allowed && v.Covers(ch, now) then 1 else 0
  {
  }

  lemma AskInWindow(l: TokenBucket.Limits, b: TokenBucket.Bucket, now: int, grants: nat, v: Window)
    requires l.Valid() && TokenBucket.Capped(l, b) && v.lo <= v.hi
    requires b.Bucket? ==> b.lastRefill <= now
    requires grants > 0 ==> b.Bucket? && b.lastRefill >= v.lo
    requires b.Bucket? && v.lo <= b.lastRefill <= v.hi ==>
               b.tokens + grants as real <= l.burst as real + TokenBucket.Added(l, b.lastRefill - v.lo)
    requires grants as real <= l.burst as real + TokenBucket.Added(l, v.hi - v.lo)
    ensures var (b', reply) := TokenBucket.Take(l, b, now);
      var grants' := grants + if reply.allowed && v.lo <= now <= v.hi then 1 else 0;
      && TokenBucket.Capped(l, b') && b'.Bucket? && b'.lastRefill == now
      && (grants' > 0 ==> now >= v.lo)
      && (v.lo <= now <= v.hi ==>
            b'.tokens + grants' as real <= l.burst as real + TokenBucket.Added(l, now - v.lo))
      && grants' as real <= l.burst as real + TokenBucket.Added(l, v.hi - v.lo)
  {
    if v.lo <= now <= v.hi { AskPays(l, b, now, grants, v.lo, v.hi); }
  }

  lemma AskPaysBucket(s: State, w: Pid, o: Outcome, v: Window)
    requires Enabled(s, Ask(w, o)) && !o.Refused? && BucketPays(s, v) && v.lo <= v.hi
    ensures BucketPays(Apply(s, Ask(w, o)), v)
  {
    AskEffect(s, w, o, v);
    if Pc(s, w).msg.notification.channel == v.channel {
      AskInWindow(s.cfg.limits, BucketOf(s, v.channel), Millis(s.now), GrantsIn(s.log, v), v);
    }
  }

  lemma AskPaysWorkers(s: State, w: Pid, o: Outcome, v: Window)
    requires Inv(s) && Enabled(s, Ask(w, o)) && !o.Refused? && WorkersPay(s, v)
    ensures WorkersPay(Apply(s, Ask(w, o)), v)
  {
    assert WorkerOk(s, s.workers[w]);
    WorkersKeepToThemselves(s, Ask(w, o));
    AskedPays(s, Apply(s, Ask(w, o)), w, v);
  }

  /** A grant is paid even if the worker never learns of it. */
  lemma AskedPays(s: State, s': State, w: Pid, v: Window)
    requires WorkersPay(s, v) && w in s.workers && w in s'.workers && s'.now == s.now
    requires s'.workers == s.workers[w := s.workers[w].(pc := Pc(s', w))]
    requires s'.log.Then? && s'.log.last.Asked?
    requires s'.log == Then(s.log, Asked(w, s.workers[w].key.channel, Millis(s.now), s'.log.last.allowed))
    requires Pc(s', w).Granted? ==> s'.log.last.allowed
    ensures WorkersPay(s', v)
  {
    assert WorkersOn(s', v.channel) == WorkersOn(s, v.channel);
    assert Early(s'.log, v) == Early(s.log, v);
    if Millis(s'.now) <= v.hi {
      forall u | u in s'.workers && Pc(s', u).Granted? && u in Early(s'.log, v) ensures u in InHand(s'.log, v) {
        if u != w { assert Pc(s, u).Granted?; }
      }
    }
  }

  lemma CallSendPaysWorkers(s: State, w: Pid, v: Window)
    requires Inv(s) && Enabled(s, CallSend(w)) && WorkersPay(s, v)
    ensures WorkersPay(Apply(s, CallSend(w)), v)
  {
    assert WorkerOk(s, s.workers[w]);
    WorkersKeepToThemselves(s, CallSend(w));
    CalledPays(s, Apply(s, CallSend(w)), w, Pc(s, w).msg.notification.id, v);
  }

  lemma CalledPays(s: State, s': State, w: Pid, id: Uuid, v: Window)
    requires WorkersPay(s, v) && w in s.workers && w in s'.workers && s'.now == s.now
    requires Pc(s, w).Granted? && !Pc(s', w).Granted?
    requires s'.workers == s.workers[w := s.workers[w].(pc := Pc(s', w))]
    requires s'.log == Then(s.log, SendCalled(w, id, s.workers[w].key.channel, s.now))
    ensures WorkersPay(s', v)
  {
    assert WorkersOn(s', v.channel) == WorkersOn(s, v.channel);
    if Millis(s'.now) <= v.hi {
      forall u | u in s'.workers && Pc(s', u).Granted? && u in Early(s'.log, v) ensures u in InHand(s'.log, v) {
        assert u != w && Pc(s, u).Granted?;
      }
    }
  }

  lemma StepPays(s: State, step: Step, v: Window)
    requires Inv(s) && Enabled(s, step) && BucketPays(s, v) && WorkersPay(s, v) && v.lo <= v.hi
    ensures BucketPays(Apply(s, step), v) && WorkersPay(Apply(s, step), v)
  {
    if RunsScript(step) {
      AskPaysBucket(s, step.w, step.o, v);
      AskPaysWorkers(s, step.w, step.o, v);
    } else if step.CallSend? {
      CallSendPaysWorkers(s, step.w, v);
    } else {
      OtherStepsPay(s, step, v);
    }
  }

  lemma {:induction false} RunPays(s: State, steps: seq<Step>, v: Window)
    requires Inv(s) && ValidRun(s, steps) && BucketPays(s, v) && WorkersPay(s, v) && v.lo <= v.hi
    ensures BucketPays(After(s, steps), v) && WorkersPay(After(s, steps), v)
    decreases |steps|
  {
    if steps != [] {
      StepPays(s, steps[0], v);
      StepKeepsInvariant(s, steps[0]);
      RunPays(Apply(s, steps[0]), steps[1..], v);
    }
  }

  lemma SendsArePaid(s: State, ch: Channel, lo: int, span: nat)
    requires Reachable(s)
    ensures SendsIn(s.log, Window(ch, lo, lo + span)) as real
         <= s.cfg.limits.burst as real + TokenBucket.Added(s.cfg.limits, span) + |WorkersOn(s, ch)| as real
  {
    var v := Window(ch, lo, lo + span);
    var s0, steps :| Init(s0) && ValidRun(s0, steps) && After(s0, steps) == s;
    InitEstablishes(s0);
    TokenBucket.AddedMonotone(s0.cfg.limits, 0, span);
    RunPays(s0, steps, v);
    SubsetSize(Early(s.log, v), WorkersOn(s, ch));
  }

  /** In every run and every window of `span` ms, the provider sees on one channel at
      most `burst + rate * span / 1000` calls plus one per worker of the channel. */
  lemma SendRateIsBounded(s: State, ch: Channel, lo: int, span: nat)
    requires Reachable(s)
    ensures SendsIn(s.log, Window(ch, lo, lo + span)) as real
         <= s.cfg.limits.burst as real + (span * s.cfg.limits.rate) as real / 1000.0 + |WorkersOn(s, ch)| as real
  {
    SendsArePaid(s, ch, lo, span);
    TokenBucket.AddedIs(s.cfg.limits, span);
  }
}
