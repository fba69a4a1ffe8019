/** The running system that the imperative code works on: shared storage, and the
    other processes, which may do anything the protocol allows between two calls. */
module Runtime {
  import opened Wrappers
  import opened Entity
  import opened NotificationTable
  import opened Streams
  import opened Lifecycle
  import opened LifecycleInvariant
  import opened LifecycleSteps
  import opened LifecycleTransfers
  import opened LifecycleTokens
  import opened LifecycleSafety
  import Backoff

  datatype Actor = NoActor | WorkerActor(w: Pid) | CreatorActor(pid: Pid) | SchedActor(pid: Pid)

  /** The process whose step this is. */
  function ActorOf(step: Step): Actor {
    match step
    case Tick(_) => NoActor
    case Persist(pid, _, _) => CreatorActor(pid)
    case CreatorEnqueue(pid, _, _) => CreatorActor(pid)
    case CreatorMark(pid, _) => CreatorActor(pid)
    case CreatorStop(pid) => CreatorActor(pid)
    case CancelCall(_, _) => NoActor
    case Fetch(pid, _, _, _, _) => SchedActor(pid)
    case SchedMark(pid, _, _) => SchedActor(pid)
    case SchedEnqueue(pid, _) => SchedActor(pid)
    case SchedStop(pid) => SchedActor(pid)
    case Dequeue(w, _) => WorkerActor(w)
    case MarkProcessing(w, _) => WorkerActor(w)
    case Ask(w, _) => WorkerActor(w)
    case WaitFails(w) => WorkerActor(w)
    case CallSend(w) => WorkerActor(w)
    case SendReturns(w, _) => WorkerActor(w)
    case PlanRetry(w, _) => WorkerActor(w)
    case MarkDelivered(w, _) => WorkerActor(w)
    case CountAttempt(w, _) => WorkerActor(w)
    case MarkFailed(w, _) => WorkerActor(w)
    case AckEntry(w, _) => WorkerActor(w)
    case Abandon(w) => WorkerActor(w)
  }

  /** The provider calls of one worker and their replies. */
  function Deliveries(h: History, w: Pid): seq<Event> {
    match h
    case Start => []
    case Then(past, e) =>
      if !e.Asked? && e.worker == w then Deliveries(past, w) + [e] else Deliveries(past, w)
  }

  /** The limiter's answers to one worker. */
  function Asks(h: History, w: Pid): seq<bool> {
    match h
    case Start => []
    case Then(past, e) => if e.Asked? && e.worker == w then Asks(past, w) + [e.allowed] else Asks(past, w)
  }

  /** The entry is in the stream of its channel and priority. */
  ghost predicate InStream(s: State, n: Notification) {
    var key := StreamKey(n.channel, n.priority);
    key in s.queues && exists i :: 0 <= i < |s.queues[key].entries| && s.queues[key].entries[i] == n
  }

  /** What belongs to one process: its own place in the code, and its calls. */
  ghost predicate MineUnchanged(s: State, s': State, me: Actor) {
    match me
    case NoActor => true
    case WorkerActor(w) =>
      && (w in s.workers <==> w in s'.workers)
      && (w in s.workers ==> s'.workers[w] == s.workers[w])
      && Deliveries(s'.log, w) == Deliveries(s.log, w) && Asks(s'.log, w) == Asks(s.log, w)
    case CreatorActor(pid) =>
      (pid in s.creators <==> pid in s'.creators) && (pid in s.creators ==> s'.creators[pid] == s.creators[pid])
    case SchedActor(pid) =>
      (pid in s.scheds <==> pid in s'.scheds) && (pid in s.scheds ==> s'.scheds[pid] == s.scheds[pid])
  }

  lemma MostLeaveHistory(s: State, step: Step)
    requires Enabled(s, step) && ByWorker(step) && !step.Ask? && !step.CallSend? && !step.SendReturns?
    ensures Apply(s, step).log == s.log
  {
  }

  lemma OwnCallsOnly(s: State, step: Step, w: Pid)
    requires Enabled(s, step) && ByWorker(step) && step.w != w
    ensures Deliveries(Apply(s, step).log, w) == Deliveries(s.log, w)
    ensures Asks(Apply(s, step).log, w) == Asks(s.log, w)
  {
    if !step.Ask? && !step.CallSend? && !step.SendReturns? { MostLeaveHistory(s, step); }
  }

  lemma OthersLeaveWorker(s: State, step: Step, w: Pid)
    requires Enabled(s, step) && ActorOf(step) != WorkerActor(w)
    ensures MineUnchanged(s, Apply(s, step), WorkerActor(w))
  {
    if ByWorker(step) {
      WorkersKeepToThemselves(s, step);
      OwnCallsOnly(s, step, w);
    } else {
      ApiStepsLeaveWorkers(s, step);
    }
  }

  lemma OthersLeaveCreator(s: State, step: Step, pid: Pid)
    requires Enabled(s, step) && ActorOf(step) != CreatorActor(pid)
    ensures MineUnchanged(s, Apply(s, step), CreatorActor(pid))
  {
    if !ByCreator(step) { OthersLeaveCreators(s, step); }
  }

  lemma OthersLeaveSched(s: State, step: Step, pid: Pid)
    requires Enabled(s, step) && ActorOf(step) != SchedActor(pid)
    ensures MineUnchanged(s, Apply(s, step), SchedActor(pid))
  {
    if !BySched(step) { OthersLeaveScheds(s, step); }
  }

  lemma OthersLeaveMine(s: State, step: Step, me: Actor)
    requires Enabled(s, step) && ActorOf(step) != me
    ensures MineUnchanged(s, Apply(s, step), me)
  {
    match me
    case NoActor =>
    case WorkerActor(w) => OthersLeaveWorker(s, step, w);
    case CreatorActor(pid) => OthersLeaveCreator(s, step, pid);
    case SchedActor(pid) => OthersLeaveSched(s, step, pid);
  }

  lemma {:induction false} RunAppend(s: State, steps: seq<Step>, step: Step)
    requires ValidRun(s, steps) && Enabled(After(s, steps), step)
    ensures ValidRun(s, steps + [step]) && After(s, steps + [step]) == Apply(After(s, steps), step)
    decreases |steps|
  {
    var all := steps + [step];
    if steps == [] {
      assert all[1..] == [];
    } else {
      assert all[1..] == steps[1..] + [step];
      RunAppend(Apply(s, steps[0]), steps[1..], step);
    }
  }

  lemma ReachableStep(s: State, step: Step)
    requires Reachable(s) && Enabled(s, step)
    ensures Reachable(Apply(s, step)) && Inv(s) && Extends(s, Apply(s, step))
  {
    ReachableInvariant(s);
    StepKeepsInvariant(s, step);
    var s0, steps :| Init(s0) && ValidRun(s0, steps) && After(s0, steps) == s;
    RunAppend(s0, steps, step);
  }

  lemma InStreamKept(s: State, s': State, n: Notification)
    requires Extends(s, s') && InStream(s, n)
    ensures InStream(s', n)
  {
    var key := StreamKey(n.channel, n.priority);
    var i :| 0 <= i < |s.queues[key].entries| && s.queues[key].entries[i] == n;
    assert s'.queues[key].entries[i] == n;
  }

  // --------------------------------------------------------- runs with a past

  /** A step that was taken, and the state it was taken in. */
  datatype Moment = Moment(before: State, step: Step)

  /** How the call ended, for steps that are calls. */
  function OutcomeOf(step: Step): Option<Outcome> {
    match step
    case Persist(_, _, o) => Some(o)
    case CreatorEnqueue(_, _, o) => Some(o)
    case CreatorMark(_, o) => Some(o)
    case CancelCall(_, o) => Some(o)
    case Fetch(_, _, _, _, o) => Some(o)
    case SchedMark(_, _, o) => Some(o)
    case SchedEnqueue(_, o) => Some(o)
    case Dequeue(_, o) => Some(o)
    case MarkProcessing(_, o) => Some(o)
    case Ask(_, o) => Some(o)
    case MarkDelivered(_, o) => Some(o)
    case CountAttempt(_, o) => Some(o)
    case MarkFailed(_, o) => Some(o)
    case AckEntry(_, o) => Some(o)
    case _ => None
  }

  /** A call whose caller sees an error. */
  predicate Fails(step: Step) { OutcomeOf(step).Some? && !OutcomeOf(step).value.Done? }

  /** The INSERT violates a key, so the database refuses it. */
  predicate Rejected(m: Moment) {
    m.step.Persist? && m.step.o.Refused? && Insert(m.before.rows, m.step.ns).Failure?
  }

  /** A random number in the range of the retry jitter. */
  type Jitter = u: real | Backoff.IsJitter(u) witness 0.0

  /** What a step finds that is not in its process's hands. */
  datatype Luck = Luck(outcome: Outcome, reply: Result<string, string>, jitter: Jitter)

  /** The step is what its luck has made it: nobody makes up an error, an answer of the
      provider, or a random number. */
  predicate Honest(m: Moment, luck: Luck) {
    && (OutcomeOf(m.step).Some? ==> OutcomeOf(m.step).value == luck.outcome || Rejected(m))
    && (m.step.SendReturns? ==> m.step.reply == luck.reply)
    && (m.step.PlanRetry? ==> m.step.jitter == luck.jitter)
  }

  /** The `k`-th state of a run that has come to `now`. */
  function StateAt(run: seq<Moment>, now: State, k: nat): State
    requires k <= |run|
  {
    if k < |run| then run[k].before else now
  }

  ghost predicate Happened(run: seq<Moment>, now: State, k: nat, luck: Luck)
    requires k < |run|
  {
    && Enabled(run[k].before, run[k].step) && Honest(run[k], luck)
    && StateAt(run, now, k + 1) == Apply(run[k].before, run[k].step)
  }

  /** Every step of the run leads from its state to the next, from `start` to `now`, and
      each is what its luck has made it. */
  ghost predicate IsRun(start: State, run: seq<Moment>, now: State, luck: nat -> Luck) {
    && StateAt(run, now, 0) == start
    && forall k {:trigger Happened(run, now, k, luck(k))} ::
         0 <= k < |run| ==> Happened(run, now, k, luck(k))
  }

  lemma RunGoesOn(start: State, run: seq<Moment>, now: State, step: Step, luck: nat -> Luck)
    requires IsRun(start, run, now, luck) && Enabled(now, step)
    requires Honest(Moment(now, step), luck(|run|))
    ensures IsRun(start, run + [Moment(now, step)], Apply(now, step), luck)
  {
    var run', now' := run + [Moment(now, step)], Apply(now, step);
    forall k | 0 <= k < |run'| ensures Happened(run', now', k, luck(k)) {
      if k < |run| { assert Happened(run, now, k, luck(k)); }
    }
  }

  /** A run that goes on keeps the states it has passed. */
  lemma StatesKept(start: State, run: seq<Moment>, was: State, later: seq<Moment>, now: State,
                   luck: nat -> Luck, k: nat)
    requires IsRun(start, run, was, luck) && IsRun(start, later, now, luck)
    requires run <= later && k <= |run|
    ensures StateAt(later, now, k) == StateAt(run, was, k)
  {
    if 0 < k == |run| {
      assert Happened(run, was, k - 1, luck(k - 1)) && Happened(later, now, k - 1, luck(k - 1));
    }
  }

  /** At or after step `from` of the run, that step wrote one row. */
  ghost predicate StatusWritten(run: seq<Moment>, now: State, from: nat, step: Step, id: Uuid, status: Status,
                                providerId: Option<string>, error: Option<string>) {
    exists k :: from <= k < |run| && run[k].step == step
                && WrittenAt(run, now, k, id, status, providerId, error)
  }

  ghost predicate WrittenAt(run: seq<Moment>, now: State, k: nat, id: Uuid, status: Status,
                            providerId: Option<string>, error: Option<string>)
    requires k < |run|
  {
    RowWritten(StateAt(run, now, k).rows, StateAt(run, now, k + 1).rows, id, status, providerId, error)
  }

  lemma StillWritten(start: State, run: seq<Moment>, was: State, later: seq<Moment>, now: State,
                     luck: nat -> Luck, from: nat, step: Step, id: Uuid, status: Status,
                     providerId: Option<string>, error: Option<string>)
    requires IsRun(start, run, was, luck) && IsRun(start, later, now, luck)
    requires run <= later
    requires StatusWritten(run, was, from, step, id, status, providerId, error)
    ensures StatusWritten(later, now, from, step, id, status, providerId, error)
  {
    var k :| from <= k < |run| && run[k].step == step && WrittenAt(run, was, k, id, status, providerId, error);
    StatesKept(start, run, was, later, now, luck, k);
    StatesKept(start, run, was, later, now, luck, k + 1);
    assert later[k].step == step && WrittenAt(later, now, k, id, status, providerId, error);
  }

  lemma EarlierWrite(run: seq<Moment>, now: State, from: nat, earlier: nat, step: Step, id: Uuid, status: Status,
                     providerId: Option<string>, error: Option<string>)
    requires StatusWritten(run, now, from, step, id, status, providerId, error) && earlier <= from
    ensures StatusWritten(run, now, earlier, step, id, status, providerId, error)
  {
    var k :| from <= k < |run| && run[k].step == step && WrittenAt(run, now, k, id, status, providerId, error);
    assert run[k].step == step;
  }

  lemma JustWritten(run: seq<Moment>, s: State, s': State, step: Step, id: Uuid, status: Status,
                    providerId: Option<string>, error: Option<string>)
    requires RowWritten(s.rows, s'.rows, id, status, providerId, error)
    ensures StatusWritten(run + [Moment(s, step)], s', |run|, step, id, status, providerId, error)
  {
    var later := run + [Moment(s, step)];
    assert later[|run|].step == step && WrittenAt(later, s', |run|, id, status, providerId, error);
  }

  /** The notification that a call of an API request or a scheduler is about. */
  function ItemOf(m: Moment): Option<Uuid> {
    match m.step
    case CreatorEnqueue(_, id, _) => Some(id)
    case CreatorMark(pid, _) => if pid in m.before.creators then m.before.creators[pid].late else None
    case SchedMark(_, id, _) => Some(id)
    case SchedEnqueue(pid, _) => if pid in m.before.scheds then m.before.scheds[pid].marked else None
    case _ => None
  }

  /** The shared state, how it has come about, and the choices that are not ours: how
      calls end, what the provider answers, and what the other processes do in
      between. */
  class World {
    ghost const start: State
    var st: State
    ghost var run: seq<Moment>
    var taken: nat // steps so far
    var turn: nat  // choices of others so far
    const luck: nat -> Luck
    const plans: nat -> seq<Step>

    ghost predicate Valid()
      reads this
    {
      Reachable(st) && taken == |run| && IsRun(start, run, st, luck)
    }

    constructor (st: State, luck: nat -> Luck, plans: nat -> seq<Step>)
      requires Init(st)
      ensures Valid() && this.st == st && start == st && run == []
    {
      start, this.st, run := st, st, [];
      taken, turn := 0, 0;
      this.luck := luck;
      this.plans := plans;
      new;
      assert ValidRun(st, []) && After(st, []) == st;
    }

    /** The other processes run; `me` stands still. */
    method Others(me: Actor)
      requires Valid()
      modifies this
      ensures Valid() && Inv(st)
      ensures MineUnchanged(old(st), st, me) && Extends(old(st), st)
      ensures old(run) <= run && forall k :: |old(run)| <= k < |run| ==> ActorOf(run[k].step) != me
    {
      var plan := plans(turn);
      turn := turn + 1;
      ReachableInvariant(st);
      var i := 0;
      while i < |plan|
        invariant 0 <= i <= |plan|
        invariant Valid()
        invariant MineUnchanged(old(st), st, me) && Extends(old(st), st)
        invariant old(run) <= run && forall k :: |old(run)| <= k < |run| ==> ActorOf(run[k].step) != me
      {
        Other(me, plan[i]);
        i := i + 1;
      }
      ReachableInvariant(st);
    }

    /** A step of another process, if it can be taken. */
    method Other(me: Actor, step: Step)
      requires Valid()
      modifies this
      ensures Valid() && turn == old(turn)
      ensures MineUnchanged(old(st), st, me) && Extends(old(st), st)
      ensures old(run) <= run && forall k :: |old(run)| <= k < |run| ==> ActorOf(run[k].step) != me
    {
      if ActorOf(step) != me && Enabled(st, step) && Honest(Moment(st, step), luck(taken)) {
        OthersLeaveMine(st, step, me);
        Do(step);
      } else {
        ReachableInvariant(st);
      }
    }

    /** One atomic call of ours, which ends as the choice says. */
    method Do(step: Step)
      requires Valid() && Enabled(st, step) && Honest(Moment(st, step), luck(taken))
      modifies this
      ensures st == Apply(old(st), step) && run == old(run) + [Moment(old(st), step)] && turn == old(turn)
      ensures Valid() && Inv(st) && Extends(old(st), st)
    {
      ReachableStep(st, step);
      RunGoesOn(start, run, st, step, luck);
      run := run + [Moment(st, step)];
      st := Apply(st, step);
      taken := taken + 1;
      ReachableInvariant(st);
    }

    /** How the next call ends. */
    method Outcome() returns (o: Outcome)
      ensures o == luck(taken).outcome
    {
      o := luck(taken).outcome;
    }

    /** What the provider answers next. */
    method Answer() returns (reply: Result<string, string>)
      ensures reply == luck(taken).reply
    {
      reply := luck(taken).reply;
    }

    /** The next random number. */
    method Random() returns (jitter: Jitter)
      ensures jitter == luck(taken).jitter
    {
      jitter := luck(taken).jitter;
    }
  }

}
