/** How many workers a pool launches (internal/worker/pool.go), and what that means
    for the load on the provider. */
module Pool {
  import opened Entity
  import opened Streams
  import opened Lifecycle
  import opened LifecyclePermanence
  import opened LifecycleInvariant
  import opened LifecycleTokens
  import opened LifecycleTransfers
  import opened Throughput

  /** How many of the listed workers serve a channel, and a single stream. */
  function CountOn(keys: seq<StreamKey>, ch: Channel): nat {
    if keys == [] then 0
    else CountOn(keys[..|keys| - 1], ch) + if keys[|keys| - 1].channel == ch then 1 else 0
  }

  function CountAt(keys: seq<StreamKey>, key: StreamKey): nat {
    if keys == [] then 0
    else CountAt(keys[..|keys| - 1], key) + if keys[|keys| - 1] == key then 1 else 0
  }

  lemma {:induction false} CountConcat(xs: seq<StreamKey>, ys: seq<StreamKey>, ch: Channel)
    ensures CountOn(xs + ys, ch) == CountOn(xs, ch) + CountOn(ys, ch)
    decreases |ys|
  {
    if ys == [] {
      assert xs + ys == xs;
    } else {
      var init := ys[..|ys| - 1];
      assert (xs + ys)[..|xs + ys| - 1] == xs + init;
      CountConcat(xs, init, ch);
    }
  }

  class WorkerPool {
    const concurrency: nat

    constructor (concurrency: nat)
      ensures this.concurrency == concurrency
    {
      this.concurrency := concurrency;
    }

    /** Launches the goroutines; `keys` lists the stream of each. */
    method Start() returns (keys: seq<StreamKey>)
      ensures |keys| == 9 * concurrency
      ensures forall key :: CountAt(keys, key) == concurrency
      ensures forall ch :: CountOn(keys, ch) == 3 * concurrency
    {
      keys := [];
      for c := 0 to 3
        invariant |keys| == 3 * c * concurrency
        invariant forall key :: CountAt(keys, key) == Copies(key, c, 0, 0, concurrency)
        invariant forall ch :: CountOn(keys, ch) == CopiesOn(ch, c, 0, 0, concurrency)
      {
        for p := 0 to 3
          invariant |keys| == (3 * c + p) * concurrency
          invariant forall key :: CountAt(keys, key) == Copies(key, c, p, 0, concurrency)
          invariant forall ch :: CountOn(keys, ch) == CopiesOn(ch, c, p, 0, concurrency)
        {
          var key := StreamKey(ALL_CHANNELS[c], ALL_PRIORITIES[p]);
          for i := 0 to concurrency
            invariant |keys| == (3 * c + p) * concurrency + i
            invariant forall key :: CountAt(keys, key) == Copies(key, c, p, i, concurrency)
            invariant forall ch :: CountOn(keys, ch) == CopiesOn(ch, c, p, i, concurrency)
          {
            assert (keys + [key])[..|keys|] == keys;
            keys := keys + [key];
          }
        }
      }
    }
  }

  function Index(ch: Channel): nat {
    match ch case Sms => 0 case Email => 1 case Push => 2
  }

  function Slot(p: Priority): nat {
    match p case High => 0 case Normal => 1 case Low => 2
  }

  /** Workers of a stream once `c` channels, `p` priorities of the next channel and `i`
      workers of the next stream are launched. */
  function Copies(key: StreamKey, c: nat, p: nat, i: nat, concurrency: nat): nat {
    if Index(key.channel) < c || (Index(key.channel) == c && Slot(key.priority) < p) then concurrency
    else if Index(key.channel) == c && Slot(key.priority) == p then i
    else 0
  }

  function CopiesOn(ch: Channel, c: nat, p: nat, i: nat, concurrency: nat): nat {
    if Index(ch) < c then 3 * concurrency
    else if Index(ch) == c then p * concurrency + i
    else 0
  }

  /** The workers of `processes` pools, numbered consecutively. */
  function Launched(keys: seq<StreamKey>): map<Pid, Lifecycle.Worker> {
    map i: int | 0 <= i < |keys| :: Lifecycle.Worker(keys[i], Idle)
  }

  function Repeated(keys: seq<StreamKey>, processes: nat): seq<StreamKey> {
    if processes == 0 then [] else Repeated(keys, processes - 1) + keys
  }

  lemma {:induction false} RepeatedCount(keys: seq<StreamKey>, processes: nat, ch: Channel)
    ensures CountOn(Repeated(keys, processes), ch) == processes * CountOn(keys, ch)
  {
    if processes > 0 {
      RepeatedCount(keys, processes - 1, ch);
      CountConcat(Repeated(keys, processes - 1), keys, ch);
    }
  }

  lemma {:induction false} LaunchedCount(keys: seq<StreamKey>, ch: Channel)
    ensures |set i: int | 0 <= i < |keys| && keys[i].channel == ch| == CountOn(keys, ch)
    decreases |keys|
  {
    var all := set i: int | 0 <= i < |keys| && keys[i].channel == ch;
    if keys == [] {
      assert all == {};
    } else {
      var n := |keys| - 1;
      var rest := keys[..n];
      LaunchedCount(rest, ch);
      var fewer := set i: int | 0 <= i < |rest| && rest[i].channel == ch;
      assert all == fewer + if keys[n].channel == ch then {n} else {};
    }
  }

  // ------------------------------------------------------- pools at work

  /** `processes` processes, each with a pool whose `Start` launched `keys`. */
  ghost predicate RunsPools(s: State, keys: seq<StreamKey>, processes: nat) {
    s.workers == Launched(Repeated(keys, processes))
  }

  /** Every worker serves its stream for the whole run. */
  lemma {:induction false} RunKeepsKeys(s: State, steps: seq<Step>, w: Pid)
    requires ValidRun(s, steps)
    ensures w in After(s, steps).workers <==> w in s.workers
    ensures w in s.workers ==> After(s, steps).workers[w].key == s.workers[w].key
    decreases |steps|
  {
    if steps != [] {
      StepKeepsKeys(s, steps[0], w);
      RunKeepsKeys(Apply(s, steps[0]), steps[1..], w);
    }
  }

  lemma WorkersOnAtStart(s: State, keys: seq<StreamKey>, processes: nat, ch: Channel)
    requires RunsPools(s, keys, processes)
    ensures |WorkersOn(s, ch)| == processes * CountOn(keys, ch)
  {
    var all := Repeated(keys, processes);
    assert WorkersOn(s, ch) == set i: int | 0 <= i < |all| && all[i].channel == ch;
    LaunchedCount(all, ch);
    RepeatedCount(keys, processes, ch);
  }

  /** With `processes` pools of concurrency `c`, the provider sees on one channel, in
      every run and every window of `span` ms, at most
      `burst + rate * span / 1000 + 3 * c * processes` calls. */
  lemma PoolLoadIsBounded(s0: State, steps: seq<Step>, keys: seq<StreamKey>, c: nat, processes: nat,
                          ch: Channel, lo: int, span: nat)
    requires Init(s0) && ValidRun(s0, steps) && RunsPools(s0, keys, processes)
    requires CountOn(keys, ch) == 3 * c
    ensures SendsIn(After(s0, steps).log, Window(ch, lo, lo + span)) as real
         <= s0.cfg.limits.burst as real + (span * s0.cfg.limits.rate) as real / 1000.0
            + (3 * c * processes) as real
  {
    var s := After(s0, steps);
    SendRateIsBounded(s, ch, lo, span);
    InitEstablishes(s0);
    RunKeepsInvariant(s0, steps);
    forall w ensures w in WorkersOn(s, ch) <==> w in WorkersOn(s0, ch) { RunKeepsKeys(s0, steps, w); }
    assert WorkersOn(s, ch) == WorkersOn(s0, ch);
    WorkersOnAtStart(s0, keys, processes, ch);
    assert processes * (3 * c) == 3 * c * processes;
  }

  lemma {:induction false} CountedKeyOccurs(keys: seq<StreamKey>, key: StreamKey) returns (i: nat)
    requires CountAt(keys, key) > 0
    ensures i < |keys| && keys[i] == key
    decreases |keys|
  {
    i := |keys| - 1;
    if keys[i] != key { i := CountedKeyOccurs(keys[..i], key); }
  }

  /** A pool with at least one worker per stream leaves no stream unserved. */
  lemma PoolServesEveryStream(s0: State, steps: seq<Step>, keys: seq<StreamKey>, c: nat, processes: nat)
    requires Init(s0) && ValidRun(s0, steps) && RunsPools(s0, keys, processes)
    requires forall key :: CountAt(keys, key) == c
    requires c >= 1 && processes >= 1
    ensures Staffed(After(s0, steps))
  {
    forall key: StreamKey ensures HasWorker(After(s0, steps), key) {
      var i := CountedKeyOccurs(keys, key);
      var before := Repeated(keys, processes - 1);
      assert s0.workers[|before| + i].key == key;
      RunKeepsKeys(s0, steps, |before| + i);
    }
  }
}
