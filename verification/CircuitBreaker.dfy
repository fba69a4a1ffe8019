/** The circuit breaker around the delivery client
    (internal/infrastructure/httpclient/circuit_breaker.go).
    Every method of the source takes the mutex for its whole body, so each one is
    a single atomic operation; `Send` is an admission, a call that is in flight
    without the mutex, and a recording. Instants are integers on one clock. */
module CircuitBreaker {
  import opened Wrappers

  datatype Config = Config(failureThreshold: int, successThreshold: int, openTimeout: int)

  /** The counters are incremented before they are compared, so a threshold below
      one acts as one. */
  function FailuresToTrip(c: Config): nat {
    if c.failureThreshold < 1 then 1 else c.failureThreshold
  }

  function SuccessesToClose(c: Config): nat {
    if c.successThreshold < 1 then 1 else c.successThreshold
  }

  datatype Circuit = Closed | Open | HalfOpen

  datatype Breaker = Breaker(state: Circuit, failures: nat, successes: nat, openedAt: int)

  const INITIAL := Breaker(Closed, 0, 0, 0)

  /** `allowRequest`: the new state, and whether the request is let through. */
  function Allow(c: Config, b: Breaker, now: int): (Breaker, bool) {
    match b.state
    case Closed => (b, true)
    case Open =>
      if now - b.openedAt >= c.openTimeout then (b.(state := HalfOpen, successes := 0), true)
      else (b, false)
    case HalfOpen => (b, true)
  }

  function TripOpen(now: int): Breaker {
    Breaker(Open, 0, 0, now)
  }

  /** `recordResult`. */
  function Record(c: Config, b: Breaker, now: int, failed: bool): Breaker {
    match b.state
    case Closed =>
      if !failed then b.(failures := 0)
      else if b.failures + 1 >= c.failureThreshold then TripOpen(now)
      else b.(failures := b.failures + 1)
    case HalfOpen =>
      if failed then TripOpen(now)
      else if b.successes + 1 >= c.successThreshold then b.(state := Closed, failures := 0, successes := 0)
      else b.(successes := b.successes + 1)
    case Open => b
  }

  // ----------------------------------------------- concurrent callers

  /** A caller is identified by a number and has at most one call in flight. */
  datatype Step =
    | Call(caller: nat, at: int)
    | Return(caller: nat, at: int, failed: bool)

  datatype System = System(breaker: Breaker, inFlight: set<nat>, now: int)

  predicate Enabled(s: System, step: Step) {
    && s.now <= step.at
    && (step.Call? <==> step.caller !in s.inFlight)
  }

  function Next(c: Config, s: System, step: Step): System {
    match step
    case Call(caller, at) =>
      var (b, ok) := Allow(c, s.breaker, at);
      System(b, if ok then s.inFlight + {caller} else s.inFlight, at)
    case Return(caller, at, failed) =>
      System(Record(c, s.breaker, at, failed), s.inFlight - {caller}, at)
  }

  predicate ValidRun(c: Config, s: System, steps: seq<Step>)
    decreases |steps|
  {
    steps == [] || (Enabled(s, steps[0]) && ValidRun(c, Next(c, s, steps[0]), steps[1..]))
  }

  function After(c: Config, s: System, steps: seq<Step>): System
    decreases |steps|
  {
    if steps == [] then s else After(c, Next(c, s, steps[0]), steps[1..])
  }

  predicate Admits(c: Config, s: System, step: Step) {
    step.Call? && Allow(c, s.breaker, step.at).1
  }

  /** The step runs `tripOpen`. */
  predicate Trips(c: Config, s: System, step: Step) {
    && step.Return? && step.failed
    && (s.breaker.state == HalfOpen
        || (s.breaker.state == Closed && s.breaker.failures + 1 >= c.failureThreshold))
  }

  /** Instants of the inner calls of a run. */
  function Admissions(c: Config, s: System, steps: seq<Step>): seq<int>
    decreases |steps|
  {
    if steps == [] then []
    else (if Admits(c, s, steps[0]) then [steps[0].at] else [])
         + Admissions(c, Next(c, s, steps[0]), steps[1..])
  }

  /** Instants at which the breaker trips in a run. */
  function TripTimes(c: Config, s: System, steps: seq<Step>): seq<int>
    decreases |steps|
  {
    if steps == [] then []
    else (if Trips(c, s, steps[0]) then [steps[0].at] else [])
         + TripTimes(c, Next(c, s, steps[0]), steps[1..])
  }

  // --------------------------------------------------- spacing of trips

  lemma {:induction false} NothingBeforeNow(c: Config, s: System, steps: seq<Step>)
    requires ValidRun(c, s, steps)
    ensures forall t :: t in Admissions(c, s, steps) ==> s.now <= t
    ensures forall t :: t in TripTimes(c, s, steps) ==> s.now <= t
    decreases |steps|
  {
    if steps != [] { NothingBeforeNow(c, Next(c, s, steps[0]), steps[1..]); }
  }

  /** From a trip on, neither an admission nor another trip happens before the
      timeout, whatever the interleaving and however late other results arrive. */
  lemma {:induction false} OpenHoldsUntilTimeout(c: Config, s: System, steps: seq<Step>)
    requires ValidRun(c, s, steps) && s.breaker.state == Open
    ensures forall t :: t in Admissions(c, s, steps) ==> s.breaker.openedAt + c.openTimeout <= t
    ensures forall t :: t in TripTimes(c, s, steps) ==> s.breaker.openedAt + c.openTimeout <= t
    decreases |steps|
  {
    if steps != [] {
      var s' := Next(c, s, steps[0]);
      if s'.breaker.state == Open {
        OpenHoldsUntilTimeout(c, s', steps[1..]);
      } else {
        NothingBeforeNow(c, s', steps[1..]);
      }
    }
  }

  predicate Spaced(times: seq<int>, gap: int) {
    forall i, j :: 0 <= i < j < |times| ==> times[i] + gap <= times[j]
  }

  /** Successive trips of any run are at least the open timeout apart. */
  lemma {:induction false} TripsAreSpaced(c: Config, s: System, steps: seq<Step>)
    requires ValidRun(c, s, steps)
    ensures Spaced(TripTimes(c, s, steps), c.openTimeout)
    decreases |steps|
  {
    if steps != [] {
      var s' := Next(c, s, steps[0]);
      var rest := TripTimes(c, s', steps[1..]);
      TripsAreSpaced(c, s', steps[1..]);
      if Trips(c, s, steps[0]) {
        OpenHoldsUntilTimeout(c, s', steps[1..]);
        var all := [steps[0].at] + rest;
        forall i, j | 0 <= i < j < |all| ensures all[i] + c.openTimeout <= all[j] {
          assert all[j] == rest[j - 1] && rest[j - 1] in rest;
          if i > 0 { assert all[i] == rest[i - 1]; }
        }
      }
    }
  }

  lemma {:induction false} SpacedSpan(times: seq<int>, gap: int, i: nat, j: nat)
    requires Spaced(times, gap) && i <= j < |times|
    ensures (j - i) * gap <= times[j] - times[i]
    decreases j - i
  {
    if i < j {
      SpacedSpan(times, gap, i, j - 1);
      assert (j - i) * gap == (j - 1 - i) * gap + gap;
    }
  }

  lemma ScaleUp(a: int, b: int, f: int)
    requires a <= b && f >= 0
    ensures a * f <= b * f
  {
  }

  lemma DivisionBound(k: nat, gap: int, span: int)
    requires gap > 0 && k * gap <= span
    ensures k <= span / gap
  {
    var d := span / gap;
    assert (d + 1) * gap == d * gap + gap;
    if k > d { ScaleUp(d + 1, k, gap); }
  }

  /** The trips number `i` to `j` of a run, if they fall into a window of length
      `span`, are at most `1 + span / openTimeout` many. */
  lemma TripsInWindow(c: Config, s: System, steps: seq<Step>, i: nat, j: nat, span: int)
    requires ValidRun(c, s, steps) && c.openTimeout > 0
    requires i <= j < |TripTimes(c, s, steps)|
    requires TripTimes(c, s, steps)[j] - TripTimes(c, s, steps)[i] <= span
    ensures j - i + 1 <= 1 + span / c.openTimeout
  {
    TripsAreSpaced(c, s, steps);
    SpacedSpan(TripTimes(c, s, steps), c.openTimeout, i, j);
    DivisionBound(j - i, c.openTimeout, span);
  }

  // ------------------------------------- counters against the history

  /** A breaker without counters: it keeps the results recorded since its state
      was entered (true for a failure) and decides from those alone. */
  datatype Remembering = Remembering(state: Circuit, results: seq<bool>, openedAt: int)

  function TrailingFailures(results: seq<bool>): nat {
    if results == [] || !results[|results| - 1] then 0
    else 1 + TrailingFailures(results[..|results| - 1])
  }

  function RememberingAllow(c: Config, r: Remembering, now: int): (Remembering, bool) {
    if r.state == Open && now - r.openedAt < c.openTimeout then (r, false)
    else if r.state == Open then (Remembering(HalfOpen, [], r.openedAt), true)
    else (r, true)
  }

  function RememberingRecord(c: Config, r: Remembering, now: int, failed: bool): Remembering {
    var results := r.results + [failed];
    match r.state
    case Open => r
    case Closed =>
      if TrailingFailures(results) >= FailuresToTrip(c) then Remembering(Open, [], now)
      else r.(results := results)
    case HalfOpen =>
      if failed then Remembering(Open, [], now)
      else if |results| >= SuccessesToClose(c) then Remembering(Closed, [], r.openedAt)
      else r.(results := results)
  }

  /** What the counters mean in each state. */
  ghost predicate Counts(c: Config, b: Breaker, r: Remembering) {
    && b.state == r.state && b.openedAt == r.openedAt
    && match b.state
       case Closed => b.successes == 0 && b.failures == TrailingFailures(r.results) < FailuresToTrip(c)
       case HalfOpen =>
         && b.failures == 0 && b.successes == |r.results| < SuccessesToClose(c)
         && forall i :: 0 <= i < |r.results| ==> !r.results[i]
       case Open => b.failures == 0 && b.successes == 0 && r.results == []
  }

  /** A new breaker is closed and remembers nothing. */
  lemma FreshRemembersNothing(c: Config)
    ensures Counts(c, INITIAL, Remembering(Closed, [], 0))
  {
  }

  function RememberingAfter(c: Config, r: Remembering, steps: seq<Step>): Remembering
    decreases |steps|
  {
    if steps == [] then r
    else RememberingAfter(c, match steps[0]
                             case Call(_, at) => RememberingAllow(c, r, at).0
                             case Return(_, at, failed) => RememberingRecord(c, r, at, failed),
                          steps[1..])
  }

  lemma CountsKept(c: Config, b: Breaker, r: Remembering, now: int, failed: bool)
    requires Counts(c, b, r)
    ensures Counts(c, Allow(c, b, now).0, RememberingAllow(c, r, now).0)
    ensures Allow(c, b, now).1 == RememberingAllow(c, r, now).1
    ensures Counts(c, Record(c, b, now, failed), RememberingRecord(c, r, now, failed))
  {
    var results := r.results + [failed];
    assert results[..|results| - 1] == r.results;
  }

  /** In every run the counters say what the results recorded since the current
      state was entered say: the trailing failures while closed, only successes
      and their number while half-open, nothing while open. */
  lemma {:induction false} CountersRefineHistory(c: Config, s: System, r: Remembering, steps: seq<Step>)
    requires Counts(c, s.breaker, r)
    ensures Counts(c, After(c, s, steps).breaker, RememberingAfter(c, r, steps))
    decreases |steps|
  {
    if steps != [] {
      var step := steps[0];
      CountsKept(c, s.breaker, r, step.at, step.Return? && step.failed);
      var r' := match step
        case Call(_, at) => RememberingAllow(c, r, at).0
        case Return(_, at, failed) => RememberingRecord(c, r, at, failed);
      CountersRefineHistory(c, Next(c, s, step), r', steps[1..]);
    }
  }

  // ------------------------------------------- load when nothing works

  predicate AllFail(steps: seq<Step>) {
    forall i :: 0 <= i < |steps| ==> steps[i].Return? ==> steps[i].failed
  }

  predicate CallersBelow(steps: seq<Step>, n: nat) {
    forall i :: 0 <= i < |steps| ==> steps[i].caller < n
  }

  predicate EndsBy(steps: seq<Step>, end: int) {
    forall i :: 0 <= i < |steps| ==> steps[i].at <= end
  }

  /** `calls` inner calls so far. Each half-open phase that is entered raises the
      `allowance` by `n` and moves the `earliest` instant of the next trip on by
      the open timeout; the current one has admitted the callers in `probes`. */
  ghost predicate LoadInvariant(c: Config, s: System, n: nat, calls: nat, allowance: int, earliest: int,
                                probes: set<nat>)
  {
    && s.inFlight <= Below(n) && earliest <= s.now
    && match s.breaker.state
       case Closed =>
         && allowance == FailuresToTrip(c) + n - 1
         && s.breaker.failures < FailuresToTrip(c)
         && calls <= s.breaker.failures + |s.inFlight|
       case Open => calls <= allowance && earliest <= s.breaker.openedAt
       case HalfOpen => probes <= s.inFlight && calls <= allowance - n + |probes|
  }

  function Below(n: nat): set<nat> {
    if n == 0 then {} else Below(n - 1) + {n - 1}
  }

  lemma {:induction false} BelowSize(n: nat)
    ensures |Below(n)| == n
    ensures forall i: nat :: i in Below(n) <==> i < n
  {
    if n > 0 { BelowSize(n - 1); }
  }

  lemma LoadStep(c: Config, s: System, step: Step, n: nat, calls: nat, allowance: int, earliest: int,
                 probes: set<nat>)
    returns (entered: bool, probes': set<nat>)
    requires LoadInvariant(c, s, n, calls, allowance, earliest, probes)
    requires Enabled(s, step) && step.caller < n && (step.Return? ==> step.failed)
    ensures LoadInvariant(c, Next(c, s, step), n, calls + (if Admits(c, s, step) then 1 else 0),
                          allowance + (if entered then n else 0),
                          earliest + (if entered then c.openTimeout else 0), probes')
  {
    var s' := Next(c, s, step);
    entered, probes' := false, probes;
    BelowSize(n);
    assert s'.inFlight <= Below(n);
    match s.breaker.state
    case Closed =>
      if s'.breaker.state == Open {
        assert s'.inFlight <= Below(n) - {step.caller};
        SubsetSize(s'.inFlight, Below(n) - {step.caller});
      }
    case Open =>
      if s'.breaker.state == HalfOpen {
        entered, probes' := true, {step.caller};
      }
    case HalfOpen =>
      if step.Call? {
        probes' := probes + {step.caller};
      } else {
        SubsetSize(probes, Below(n));
      }
  }

  lemma NextMultiple(n: int, k: int)
    ensures n * (k + 1) == n * k + n
  {
  }

  lemma LoadNow(c: Config, s: System, n: nat, calls: nat, allowance: int, earliest: int, probes: set<nat>)
    requires LoadInvariant(c, s, n, calls, allowance, earliest, probes)
    requires allowance >= FailuresToTrip(c) + n - 1
    ensures calls <= allowance
  {
    BelowSize(n);
    SubsetSize(s.inFlight, Below(n));
    if s.breaker.state == HalfOpen { SubsetSize(probes, Below(n)); }
  }

  /** `eras` half-open phases are still to come in `steps`. */
  lemma {:induction false} LoadBound(c: Config, s: System, steps: seq<Step>, n: nat, end: int,
                                     calls: nat, allowance: int, earliest: int, probes: set<nat>)
    returns (eras: nat)
    requires LoadInvariant(c, s, n, calls, allowance, earliest, probes)
    requires allowance >= FailuresToTrip(c) + n - 1
    requires ValidRun(c, s, steps) && AllFail(steps) && CallersBelow(steps, n)
    requires EndsBy(steps, end) && s.now <= end
    ensures calls + |Admissions(c, s, steps)| <= allowance + n * eras
    ensures earliest + c.openTimeout * eras <= end
    decreases |steps|
  {
    if steps == [] {
      LoadNow(c, s, n, calls, allowance, earliest, probes);
      eras := 0;
    } else {
      var entered, probes' := LoadStep(c, s, steps[0], n, calls, allowance, earliest, probes);
      var calls' := calls + (if Admits(c, s, steps[0]) then 1 else 0);
      if entered {
        eras := LoadBound(c, Next(c, s, steps[0]), steps[1..], n, end,
                          calls', allowance + n, earliest + c.openTimeout, probes');
        NextMultiple(n, eras);
        NextMultiple(c.openTimeout, eras);
        eras := eras + 1;
      } else {
        eras := LoadBound(c, Next(c, s, steps[0]), steps[1..], n, end, calls', allowance, earliest, probes');
      }
    }
  }

  /** If every inner call fails, `n` concurrent callers that start on a closed breaker
      make at most F + n - 1 + n * floor(span / timeout) inner calls within `span`, less
      the failures already counted and the calls already in flight; for one caller on
      a fresh breaker that is F + floor(span / timeout). */
  lemma FailingLoadIsBounded(c: Config, s: System, steps: seq<Step>, n: nat, span: nat)
    requires c.openTimeout > 0 && n >= 1
    requires s.breaker.state == Closed && s.breaker.failures < FailuresToTrip(c) && s.inFlight <= Below(n)
    requires ValidRun(c, s, steps)
    requires AllFail(steps) && CallersBelow(steps, n) && EndsBy(steps, s.now + span)
    ensures |Admissions(c, s, steps)|
         <= FailuresToTrip(c) + n - 1 + n * (span / c.openTimeout) - s.breaker.failures - |s.inFlight|
  {
    var eras := LoadBound(c, s, steps, n, s.now + span, s.breaker.failures + |s.inFlight|,
                          FailuresToTrip(c) + n - 1, s.now, {});
    DivisionBound(eras, c.openTimeout, span);
    ScaleUp(eras, span / c.openTimeout, n);
  }

  // ------------------------------ what the half-open state does not do

  /** One call by each of the callers `from .. n-1`, all at the same instant. */
  function Calls(from: nat, n: nat, at: int): seq<Step>
    requires from <= n
    decreases n - from
  {
    if from == n then [] else [Call(from, at)] + Calls(from + 1, n, at)
  }

  lemma {:induction false} ProbesPileUp(c: Config, s: System, from: nat, n: nat, at: int)
    requires from <= n && s.inFlight == Below(from) && s.now <= at
    requires s.breaker.state == HalfOpen
    ensures ValidRun(c, s, Calls(from, n, at))
    ensures After(c, s, Calls(from, n, at)).breaker.state == HalfOpen
    ensures After(c, s, Calls(from, n, at)).inFlight == Below(n)
    decreases n - from
  {
    if from < n {
      assert Calls(from, n, at)[1..] == Calls(from + 1, n, at);
      var s' := Next(c, s, Call(from, at));
      assert s'.inFlight == Below(from + 1);
      BelowSize(from);
      ProbesPileUp(c, s', from + 1, n, at);
    }
  }

  /** Half-open does not admit a single probe: once the timeout is over, any number
      of callers are let through at the same instant and are all in flight together. */
  lemma HalfOpenAdmitsEveryCaller(c: Config, s: System, n: nat, at: int)
    requires s.breaker.state == Open && s.inFlight == {} && n >= 1
    requires s.now <= at && s.breaker.openedAt + c.openTimeout <= at
    ensures ValidRun(c, s, Calls(0, n, at))
    ensures After(c, s, Calls(0, n, at)).breaker.state == HalfOpen
    ensures |After(c, s, Calls(0, n, at)).inFlight| == n
  {
    var s' := Next(c, s, Call(0, at));
    assert s'.inFlight == Below(1);
    assert Calls(0, n, at)[1..] == Calls(1, n, at);
    ProbesPileUp(c, s', 1, n, at);
    BelowSize(n);
  }

  lemma {:induction false} RunConcat(c: Config, s: System, xs: seq<Step>, ys: seq<Step>)
    requires ValidRun(c, s, xs) && ValidRun(c, After(c, s, xs), ys)
    ensures ValidRun(c, s, xs + ys) && After(c, s, xs + ys) == After(c, After(c, s, xs), ys)
    decreases |xs|
  {
    if xs == [] {
      assert xs + ys == ys;
    } else {
      assert (xs + ys)[1..] == xs[1..] + ys;
      RunConcat(c, Next(c, s, xs[0]), xs[1..], ys);
    }
  }

  /** `k` failing calls of caller 0, one after the other. */
  function FailingCalls(k: nat, at: int): seq<Step> {
    if k == 0 then [] else [Call(0, at), Return(0, at, true)] + FailingCalls(k - 1, at)
  }

  lemma {:induction false} FailingCallsTrip(c: Config, s: System, k: nat, at: int)
    requires s.breaker.state == Closed && s.inFlight == {} && s.now <= at
    requires k >= 1 && s.breaker.failures + k == FailuresToTrip(c)
    ensures var steps := FailingCalls(k, at);
      && ValidRun(c, s, steps) && CallersBelow(steps, 1)
      && After(c, s, steps).breaker == TripOpen(at) && After(c, s, steps).inFlight == {}
      && After(c, s, steps).now == at
    decreases k
  {
    var both := [Call(0, at), Return(0, at, true)];
    assert both[1..] == [Return(0, at, true)] && both[1..][1..] == [];
    var s1 := Next(c, s, Call(0, at));
    var s2 := Next(c, s1, Return(0, at, true));
    assert s2.inFlight == {};
    assert After(c, s1, both[1..]) == s2;
    assert After(c, s, both) == After(c, s1, both[1..]);
    if k > 1 {
      FailingCallsTrip(c, s2, k - 1, at);
    } else {
      assert FailingCalls(0, at) == [];
    }
    RunConcat(c, s, both, FailingCalls(k - 1, at));
  }

  lemma {:induction false} CallsBelow(from: nat, n: nat, at: int)
    requires from <= n
    ensures CallersBelow(Calls(from, n, at), n)
    decreases n - from
  {
    if from < n { CallsBelow(from + 1, n, at); }
  }

  /** A run in which `n` callers are in flight together in the half-open state. */
  lemma ManyProbes(c: Config, n: nat, start: int) returns (steps: seq<Step>)
    requires n >= 1
    ensures ValidRun(c, System(INITIAL, {}, start), steps) && CallersBelow(steps, n)
    ensures var s := After(c, System(INITIAL, {}, start), steps);
      s.breaker.state == HalfOpen && |s.inFlight| == n
  {
    var s0 := System(INITIAL, {}, start);
    var fails := FailingCalls(FailuresToTrip(c), start);
    FailingCallsTrip(c, s0, FailuresToTrip(c), start);
    var at := if c.openTimeout > 0 then start + c.openTimeout else start;
    HalfOpenAdmitsEveryCaller(c, After(c, s0, fails), n, at);
    CallsBelow(0, n, at);
    RunConcat(c, s0, fails, Calls(0, n, at));
    steps := fails + Calls(0, n, at);
  }

  lemma {:induction false} InFlightBelow(c: Config, s: System, steps: seq<Step>, n: nat)
    requires s.inFlight <= Below(n) && CallersBelow(steps, n)
    ensures After(c, s, steps).inFlight <= Below(n)
    decreases |steps|
  {
    BelowSize(n);
    if steps != [] {
      assert CallersBelow(steps[1..], n);
      InFlightBelow(c, Next(c, s, steps[0]), steps[1..], n);
    }
  }

  /** The documented "one probe" at a time: in every half-open state that `n` callers
      reach from a closed start at most one call is in flight. */
  ghost predicate OneProbe(c: Config, n: nat, start: int) {
    forall steps ::
      var s := After(c, System(INITIAL, {}, start), steps);
      ValidRun(c, System(INITIAL, {}, start), steps) && CallersBelow(steps, n) && s.breaker.state == HalfOpen ==>
        |s.inFlight| <= 1
  }

  /** It holds if and only if there is no more than one caller. */
  lemma OneProbeIffOneCaller(c: Config, n: nat, start: int)
    ensures OneProbe(c, n, start) <==> n <= 1
  {
    if n <= 1 {
      forall steps | CallersBelow(steps, n) ensures |After(c, System(INITIAL, {}, start), steps).inFlight| <= 1 {
        InFlightBelow(c, System(INITIAL, {}, start), steps, n);
        SubsetSize(After(c, System(INITIAL, {}, start), steps).inFlight, Below(n));
        BelowSize(n);
      }
    } else {
      var steps := ManyProbes(c, n, start);
    }
  }

  // ------------------------------------------- results of earlier calls

  /** Nothing but results of the calls in `late`. */
  predicate OnlyResultsOf(steps: seq<Step>, late: set<nat>) {
    forall i :: 0 <= i < |steps| ==> steps[i].Return? && steps[i].caller in late
  }

  /** Successful results of the calls in `late`, as many as it takes. */
  lemma {:induction false} EnoughSuccesses(c: Config, s: System, late: set<nat>) returns (steps: seq<Step>)
    requires s.breaker.state == HalfOpen && late <= s.inFlight
    requires s.breaker.successes < SuccessesToClose(c) <= s.breaker.successes + |late|
    ensures ValidRun(c, s, steps) && OnlyResultsOf(steps, late) && After(c, s, steps).breaker.state == Closed
    decreases |late|
  {
    assert (forall x :: x !in late) ==> late == {};
    var caller :| caller in late;
    var step := Return(caller, s.now, false);
    var s' := Next(c, s, step);
    if s'.breaker.state == Closed {
      steps := [step];
    } else {
      var rest := EnoughSuccesses(c, s', late - {caller});
      steps := [step] + rest;
      assert steps[1..] == rest;
    }
  }

  /** Too few calls of `late` are in flight to close the breaker. */
  predicate TooFew(c: Config, s: System, late: set<nat>) {
    || s.breaker.state == Open
    || (s.breaker.state == HalfOpen && s.breaker.successes + |late * s.inFlight| < SuccessesToClose(c))
  }

  lemma {:induction false} TooFewNeverClose(c: Config, s: System, late: set<nat>, steps: seq<Step>)
    requires TooFew(c, s, late) && ValidRun(c, s, steps) && OnlyResultsOf(steps, late)
    ensures After(c, s, steps).breaker.state != Closed
    decreases |steps|
  {
    if steps != [] {
      var s' := Next(c, s, steps[0]);
      assert late * s'.inFlight == late * s.inFlight - {steps[0].caller};
      assert OnlyResultsOf(steps[1..], late);
      TooFewNeverClose(c, s', late, steps[1..]);
    }
  }

  /** Results of the calls in `late` alone can close the breaker. */
  ghost predicate CanCloseOn(c: Config, s: System, late: set<nat>) {
    exists steps :: ValidRun(c, s, steps) && OnlyResultsOf(steps, late) && After(c, s, steps).breaker.state == Closed
  }

  /** When `probe` turns the open breaker half-open, the calls from before the trip
      that are still in flight can close it on their own, with no result of a probe,
      if and only if there are at least as many as successes are required. */
  lemma LateResultsCloseIffEnough(c: Config, s: System, probe: nat, at: int)
    requires s.breaker.state == Open && Enabled(s, Call(probe, at)) && Admits(c, s, Call(probe, at))
    ensures CanCloseOn(c, Next(c, s, Call(probe, at)), s.inFlight) <==> |s.inFlight| >= SuccessesToClose(c)
  {
    var s1, late := Next(c, s, Call(probe, at)), s.inFlight;
    if |late| >= SuccessesToClose(c) {
      var steps := EnoughSuccesses(c, s1, late);
    } else {
      assert late * s1.inFlight == late;
      forall steps | ValidRun(c, s1, steps) && OnlyResultsOf(steps, late)
        ensures After(c, s1, steps).breaker.state != Closed
      {
        TooFewNeverClose(c, s1, late, steps);
      }
    }
  }

  /** An instance: one late result closes the breaker although the probe has not
      returned. */
  lemma LateResultClosesTheBreaker()
    ensures
      var c := Config(1, 1, 10);
      var steps := [Call(0, 0), Call(1, 0), Return(0, 1, true), Call(2, 11), Return(1, 12, false)];
      && ValidRun(c, System(INITIAL, {}, 0), steps)
      && After(c, System(INITIAL, {}, 0), steps).breaker.state == Closed
      && After(c, System(INITIAL, {}, 0), steps).inFlight == {2}
  {
    var c := Config(1, 1, 10);
    var s0 := System(INITIAL, {}, 0);
    var s1 := Next(c, s0, Call(0, 0));
    var s2 := Next(c, s1, Call(1, 0));
    var s3 := Next(c, s2, Return(0, 1, true));
    var s4 := Next(c, s3, Call(2, 11));
    var s5 := Next(c, s4, Return(1, 12, false));
    assert s5.breaker.state == Closed && s5.inFlight == {2};
    var steps := [Call(0, 0), Call(1, 0), Return(0, 1, true), Call(2, 11), Return(1, 12, false)];
    assert steps[1..] == [Call(1, 0), Return(0, 1, true), Call(2, 11), Return(1, 12, false)];
    assert steps[1..][1..] == [Return(0, 1, true), Call(2, 11), Return(1, 12, false)];
    assert steps[1..][1..][1..] == [Call(2, 11), Return(1, 12, false)];
    assert steps[1..][1..][1..][1..] == [Return(1, 12, false)];
    assert After(c, s4, [Return(1, 12, false)]) == s5;
    assert After(c, s3, [Call(2, 11), Return(1, 12, false)]) == s5;
    assert After(c, s2, steps[1..][1..]) == s5;
  }

  // ------------------------------------------------------------ the class

  /** What other callers do to the breaker while a call is in flight. */
  datatype Operation = Asked(at: int) | Recorded(at: int, failed: bool)

  function AfterOthers(c: Config, b: Breaker, ops: seq<Operation>): Breaker
    decreases |ops|
  {
    if ops == [] then b
    else AfterOthers(c, match ops[0]
                        case Asked(at) => Allow(c, b, at).0
                        case Recorded(at, failed) => Record(c, b, at, failed),
                     ops[1..])
  }

  class CircuitBreakerClient {
    const config: Config
    var state: Circuit
    var consecutiveFailures: nat
    var consecutiveSuccesses: nat
    var openedAt: int

    ghost function View(): Breaker
      reads this
    {
      Breaker(state, consecutiveFailures, consecutiveSuccesses, openedAt)
    }

    constructor (config: Config)
      ensures View() == INITIAL == Breaker(Closed, 0, 0, 0) && this.config == config
    {
      this.config := config;
      state, consecutiveFailures, consecutiveSuccesses, openedAt := Closed, 0, 0, 0;
    }

    method AllowRequest(now: int) returns (ok: bool)
      modifies this
      ensures (View(), ok) == Allow(config, old(View()), now)
    {
      match state
      case Closed => return true;
      case Open =>
        if now - openedAt >= config.openTimeout {
          state := HalfOpen;
          consecutiveSuccesses := 0;
          return true;
        }
        return false;
      case HalfOpen => return true;
    }

    method RecordResult(now: int, failed: bool)
      modifies this
      ensures View() == Record(config, old(View()), now, failed)
    {
      if failed {
        OnFailure(now);
      } else {
        OnSuccess();
      }
    }

    method OnFailure(now: int)
      modifies this
      ensures View() == Record(config, old(View()), now, true)
    {
      match state
      case Closed =>
        consecutiveFailures := consecutiveFailures + 1;
        if consecutiveFailures >= config.failureThreshold {
          Trip(now);
        }
      case HalfOpen => Trip(now);
      case Open =>
    }

    method OnSuccess()
      modifies this
      ensures forall now :: View() == Record(config, old(View()), now, false)
    {
      match state
      case Closed => consecutiveFailures := 0;
      case HalfOpen =>
        consecutiveSuccesses := consecutiveSuccesses + 1;
        if consecutiveSuccesses >= config.successThreshold {
          state := Closed;
          consecutiveFailures := 0;
          consecutiveSuccesses := 0;
        }
      case Open =>
    }

    method Trip(now: int)
      modifies this
      ensures View() == TripOpen(now)
    {
      state := Open;
      openedAt := now;
      consecutiveFailures := 0;
      consecutiveSuccesses := 0;
    }

    /** Other callers' operations, one at a time. */
    method Others(ops: seq<Operation>)
      modifies this
      ensures View() == AfterOthers(config, old(View()), ops)
    {
      var i := 0;
      while i < |ops|
        invariant 0 <= i <= |ops|
        invariant AfterOthers(config, View(), ops[i..]) == AfterOthers(config, old(View()), ops)
      {
        assert ops[i..][0] == ops[i] && ops[i..][1..] == ops[i + 1..];
        match ops[i] {
          case Asked(at) => var _ := AllowRequest(at);
          case Recorded(at, failed) => RecordResult(at, failed);
        }
        i := i + 1;
      }
    }

    /** `Send`: the inner client is called iff the request is admitted; while it
        runs the mutex is free and `others` happens. */
    method Send(start: int, others: seq<Operation>, finish: int, innerFails: bool)
      returns (called: bool, failed: bool)
      modifies this
      ensures called == Allow(config, old(View()), start).1
      ensures failed == (called ==> innerFails)
      ensures !called ==> View() == old(View())
      ensures called ==>
        View() == Record(config, AfterOthers(config, Allow(config, old(View()), start).0, others), finish, innerFails)
    {
      called := AllowRequest(start);
      if !called { return false, true; }
      Others(others);
      RecordResult(finish, innerFails);
      failed := innerFails;
    }
  }
}
