/** The worker side in the form of the source: `Processor.Process`
    (internal/worker/processor.go) and `runWorker` (internal/worker/pool.go). Before
    each call the other processes may run. */
module Workers {
  import opened Wrappers
  import opened Entity
  import opened NotificationTable
  import opened Streams
  import opened Lifecycle
  import opened LifecycleInvariant
  import opened LifecycleSteps
  import opened LifecycleEffects
  import opened Runtime

  /** The entry of the message has been acknowledged. */
  ghost predicate Acknowledged(s: State, msg: QueueMessage) {
    var key := StreamKey(msg.notification.channel, msg.notification.priority);
    key in s.queues && s.queues[key].Acked(msg.streamMsgId)
  }

  type Reply = Result<string, string>

  /** The table shows the outcome of the attempt that carried `n`: the id that the
      provider returned, or one more attempt. */
  ghost predicate Recorded(t: Table, n: Notification, reply: Reply) {
    && n.id in t
    && if reply.Success? then t[n.id].providerMessageId == Some(reply.value) else t[n.id].attempts > n.attempts
  }

  /** The worker has made one call for `n` and received the reply. */
  ghost predicate OneDelivery(before: seq<Event>, after: seq<Event>, w: Pid, n: Notification, reply: Reply) {
    && |after| == |before| + 2 && after[..|before|] == before
    && after[|before|].SendCalled? && after[|before|].id == n.id && after[|before|].channel == n.channel
    && after[|before| + 1] == SendReturned(w, n.id, reply)
  }

  lemma CallAndReply(before: seq<Event>, w: Pid, n: Notification, at: int, reply: Reply)
    ensures OneDelivery(before, before + [SendCalled(w, n.id, n.channel, at)] + [SendReturned(w, n.id, reply)],
                        w, n, reply)
  {
  }

  lemma AckEffect(s: State, w: Pid, o: Outcome)
    requires Inv(s) && Enabled(s, AckEntry(w, o))
    ensures var s' := Apply(s, AckEntry(w, o));
      && w in s'.workers && Pc(s', w).Idle? && s'.log == s.log
      && (o.Done? ==> Acknowledged(s', Pc(s, w).msg))
  {
    assert WorkerOk(s, s.workers[w]);
  }

  /** Step `k` of the run counted an attempt, at that instant, with that retry time. */
  ghost predicate CountWritten(run: seq<Moment>, now: State, k: nat, id: Uuid, next: Option<int>)
    requires k < |run|
  {
    AttemptWritten(StateAt(run, now, k).rows, StateAt(run, now, k + 1).rows, id, next, run[k].before.now)
  }

  lemma JustFailed(run: seq<Moment>, m: Moment, w: Pid, e: ProcessError)
    requires ActorOf(m.step) == WorkerActor(w) && Fails(m.step) && IsCall(m.step, e)
    ensures CallFailed(run + [m], w, e, |run|)
  {
    assert (run + [m])[|run|] == m;
  }

  function Refusals(n: nat): seq<bool> {
    if n == 0 then [] else Refusals(n - 1) + [false]
  }

  lemma OneMoreRefusal(asks: seq<bool>, n: nat)
    ensures asks + Refusals(n) + [false] == asks + Refusals(n + 1)
  {
  }

  lemma AskEffect(s: State, w: Pid, o: Outcome)
    requires Enabled(s, Ask(w, o))
    ensures var s', pc := Apply(s, Ask(w, o)), Pc(s, w);
      && w in s'.workers && Deliveries(s'.log, w) == Deliveries(s.log, w)
      && (o.Done? ==> (Pc(s', w) == Granted(pc.msg) || Pc(s', w) == pc)
                      && Asks(s'.log, w) == Asks(s.log, w) + [Pc(s', w).Granted?])
      && (!o.Done? ==> Pc(s', w).Idle? && Asks(s.log, w) <= Asks(s'.log, w))
  {
  }

  lemma CallSendEffect(s: State, w: Pid)
    requires w in s.workers && Pc(s, w).Granted?
    ensures var n := Pc(s, w).msg.notification;
      && Enabled(s, CallSend(w)) && w in Apply(s, CallSend(w)).workers
      && Pc(Apply(s, CallSend(w)), w) == Sending(Pc(s, w).msg)
      && Deliveries(Apply(s, CallSend(w)).log, w)
         == Deliveries(s.log, w) + [SendCalled(w, n.id, n.channel, s.now)]
  {
  }

  lemma SendReturnsEffect(s: State, w: Pid, reply: Reply)
    requires w in s.workers && Pc(s, w).Sending?
    ensures var step, msg := SendReturns(w, reply), Pc(s, w).msg;
      && Enabled(s, step) && w in Apply(s, step).workers
      && Pc(Apply(s, step), w)
         == (if reply.Success? then Accepted(msg, reply.value) else Rejected(msg, reply.error))
      && Deliveries(Apply(s, step).log, w)
         == Deliveries(s.log, w) + [SendReturned(w, msg.notification.id, reply)]
  {
  }

  /** Where the worker is when the provider has answered. */
  function Answered(msg: QueueMessage, reply: Reply): WorkerPc {
    if reply.Success? then Accepted(msg, reply.value) else Rejected(msg, reply.error)
  }

  lemma CountEffect(s: State, w: Pid, o: Outcome)
    requires w in s.workers && Pc(s, w).Planned? && Pc(s, w).msg.notification.id in s.rows
    ensures var step, pc := CountAttempt(w, o), Pc(s, w);
      && Enabled(s, step) && w in Apply(s, step).workers && Apply(s, step).log == s.log
      && Pc(Apply(s, step), w) == if o.Done? then Counted(pc.msg, pc.error) else Idle
  {
  }

  lemma DequeueEffect(s: State, w: Pid, o: Outcome)
    requires Enabled(s, Dequeue(w, o))
    ensures var s' := Apply(s, Dequeue(w, o));
      w in s'.workers && s'.log == s.log && if o.Done? then Pc(s', w).Got? else Pc(s', w).Idle?
  {
  }

  lemma DeliveredEffect(s: State, w: Pid)
    requires w in s.workers && Pc(s, w).Accepted? && Pc(s, w).msg.notification.id in s.rows
    ensures var step := MarkDelivered(w, Done);
      && Enabled(s, step)
      && Recorded(Apply(s, step).rows, Pc(s, w).msg.notification, Success(Pc(s, w).providerId))
  {
  }

  lemma RowFound(s: State, w: Pid)
    requires Inv(s) && w in s.workers && Holding(Pc(s, w))
    ensures Pc(s, w).msg.notification.id in s.rows
  {
    assert WorkerOk(s, s.workers[w]);
  }

  lemma CountedMeansRecorded(s: State, w: Pid)
    requires Inv(s) && w in s.workers && Pc(s, w).Counted?
    ensures Recorded(s.rows, Pc(s, w).msg.notification, Failure(Pc(s, w).error))
  {
    var id := Pc(s, w).msg.notification.id;
    RowFound(s, w);
    assert IdOk(s, id) && Holds(s, id, AtWorker(w));
  }

  lemma MarkFailedEffect(s: State, w: Pid, o: Outcome)
    requires Inv(s) && w in s.workers && Pc(s, w).Counted?
    ensures var step, pc := MarkFailed(w, o), Pc(s, w);
      && Enabled(s, step) && w in Apply(s, step).workers && Apply(s, step).log == s.log
      && Pc(Apply(s, step), w) == (if o.Done? then Acking(pc.msg) else Idle)
      && Recorded(Apply(s, step).rows, pc.msg.notification, Failure(pc.error))
  {
    RowFound(s, w);
    CountedMeansRecorded(s, w);
  }

  /** The call whose error `Process` returns. */
  datatype ProcessError =
    ProcessingStatus | LimiterWait | DeliveredStatus | AttemptCount | FailedStatus | Acknowledgement

  /** A step is a call of that kind. */
  predicate IsCall(step: Step, e: ProcessError) {
    match e
    case ProcessingStatus => step.MarkProcessing?
    case LimiterWait => step.Ask?
    case DeliveredStatus => step.MarkDelivered?
    case AttemptCount => step.CountAttempt?
    case FailedStatus => step.MarkFailed?
    case Acknowledgement => step.AckEntry?
  }

  /** At or after step `from` of the run, that call of worker `w` has failed. */
  ghost predicate CallFailed(run: seq<Moment>, w: Pid, e: ProcessError, from: nat) {
    exists k :: from <= k < |run| && ActorOf(run[k].step) == WorkerActor(w) && Fails(run[k].step)
                && IsCall(run[k].step, e)
  }

  lemma StillFailed(run: seq<Moment>, later: seq<Moment>, w: Pid, e: ProcessError, from: nat, earlier: nat)
    requires CallFailed(run, w, e, from) && run <= later && earlier <= from
    ensures CallFailed(later, w, e, earlier)
  {
    var k :| from <= k < |run| && ActorOf(run[k].step) == WorkerActor(w) && Fails(run[k].step)
             && IsCall(run[k].step, e);
    assert later[k] == run[k];
  }

  /** Between two states of the run, `patience + 1` requests for a token were refused. */
  ghost predicate Refused(run: seq<Moment>, now: State, w: Pid, patience: nat, from: nat) {
    exists i, j :: from <= i <= j <= |run| && RefusedFrom(run, now, w, patience, i, j)
  }

  ghost predicate RefusedFrom(run: seq<Moment>, now: State, w: Pid, patience: nat, i: nat, j: nat)
    requires i <= j <= |run|
  {
    Asks(StateAt(run, now, j).log, w) == Asks(StateAt(run, now, i).log, w) + Refusals(patience) + [false]
  }

  /** What a round of `runWorker` found at step `at` of the run, and what became of it. */
  datatype Round =
    | Empty(at: nat)
    | ReadFailed(at: nat, o: Outcome)
    | Handled(at: nat, r: Result<(), ProcessError>, reply: Option<Reply>)
  {
    function End(): nat { if Empty? then at else at + 1 }

    /** The provider was called. */
    predicate Called() { Handled? && reply.Some? }
  }

  ghost predicate RoundOk(run: seq<Moment>, now: State, w: Pid, round: Round, patience: nat, from: nat) {
    && from <= round.at && round.End() <= |run|
    && var s := StateAt(run, now, round.at);
       && w in s.workers && Pc(s, w).Idle?
       && match round
          case Empty(_) => At(s.queues, s.workers[w].key).cursor >= |At(s.queues, s.workers[w].key).entries|
          case ReadFailed(at, o) => !o.Done? && run[at].step == Dequeue(w, o)
          case Handled(at, r, reply) =>
            && run[at].step == Dequeue(w, Done)
            && (reply.None? <==> r.Failure? && (r.error == ProcessingStatus || r.error == LimiterWait))
            && (r.Failure? ==> EndedFor(run, now, w, r.error, patience, at))
  }

  /** An error of `Process` is due to a failed call or to the wait. */
  ghost predicate EndedFor(run: seq<Moment>, now: State, w: Pid, e: ProcessError, patience: nat, from: nat) {
    CallFailed(run, w, e, from) || (e == LimiterWait && Refused(run, now, w, patience, from))
  }

  /** All rounds, one after the other. */
  ghost predicate RoundsOk(run: seq<Moment>, now: State, w: Pid, log: seq<Round>, patience: nat, from: nat) {
    && (forall i :: 0 <= i < |log| ==> RoundOk(run, now, w, log[i], patience, from))
    && (forall i, j :: 0 <= i < j < |log| ==> log[i].End() <= log[j].at)
  }

  function HandledIn(log: seq<Round>): nat {
    if log == [] then 0
    else HandledIn(log[..|log| - 1]) + if log[|log| - 1].Handled? then 1 else 0
  }

  function CalledIn(log: seq<Round>): nat {
    if log == [] then 0
    else CalledIn(log[..|log| - 1]) + if log[|log| - 1].Called() then 1 else 0
  }

  lemma EndsForAReason(start: State, run: seq<Moment>, was: State, later: seq<Moment>, now: State,
                       luck: nat -> Luck, w: Pid, e: ProcessError, patience: nat, from: nat)
    requires IsRun(start, run, was, luck) && IsRun(start, later, now, luck) && run <= later
    requires from <= |run|
    requires || CallFailed(later, w, e, |run|)
             || (e == LimiterWait && Asks(now.log, w) == Asks(was.log, w) + Refusals(patience) + [false])
    ensures EndedFor(later, now, w, e, patience, from)
  {
    if CallFailed(later, w, e, |run|) {
      StillFailed(later, later, w, e, |run|, from);
    } else {
      StatesKept(start, run, was, later, now, luck, |run|);
      assert RefusedFrom(later, now, w, patience, |run|, |later|);
    }
  }

  lemma MessageHandled(start: State, run: seq<Moment>, was: State, later: seq<Moment>, now: State, luck: nat -> Luck,
                       w: Pid, at: nat, r: Result<(), ProcessError>, reply: Option<Reply>, patience: nat)
    requires IsRun(start, run, was, luck) && IsRun(start, later, now, luck) && run <= later
    requires |run| == at + 1 && run[at].step == Dequeue(w, Done)
    requires w in run[at].before.workers && Pc(run[at].before, w).Idle?
    requires reply.None? <==> r.Failure? && (r.error == ProcessingStatus || r.error == LimiterWait)
    requires r.Failure? ==>
      || CallFailed(later, w, r.error, |run|)
      || (r.error == LimiterWait && Asks(now.log, w) == Asks(was.log, w) + Refusals(patience) + [false])
    ensures RoundOk(later, now, w, Handled(at, r, reply), patience, at)
  {
    assert later[at] == run[at];
    if r.Failure? { EndsForAReason(start, run, was, later, now, luck, w, r.error, patience, at); }
  }

  lemma RoundKept(start: State, run: seq<Moment>, was: State, later: seq<Moment>, now: State,
                  luck: nat -> Luck, w: Pid, round: Round, patience: nat, from: nat)
    requires IsRun(start, run, was, luck) && IsRun(start, later, now, luck) && run <= later
    requires RoundOk(run, was, w, round, patience, from)
    ensures RoundOk(later, now, w, round, patience, from)
  {
    StatesKept(start, run, was, later, now, luck, round.at);
    if round.Handled? && round.r.Failure? {
      EndKept(start, run, was, later, now, luck, w, round.r.error, patience, round.at);
    }
  }

  lemma EndKept(start: State, run: seq<Moment>, was: State, later: seq<Moment>, now: State,
                luck: nat -> Luck, w: Pid, e: ProcessError, patience: nat, from: nat)
    requires IsRun(start, run, was, luck) && IsRun(start, later, now, luck) && run <= later
    requires EndedFor(run, was, w, e, patience, from)
    ensures EndedFor(later, now, w, e, patience, from)
  {
    if CallFailed(run, w, e, from) {
      StillFailed(run, later, w, e, from, from);
    } else {
      var i, j :| from <= i <= j <= |run| && RefusedFrom(run, was, w, patience, i, j);
      StatesKept(start, run, was, later, now, luck, i);
      StatesKept(start, run, was, later, now, luck, j);
      assert RefusedFrom(later, now, w, patience, i, j);
    }
  }

  lemma OneMoreRound(start: State, run: seq<Moment>, was: State, later: seq<Moment>, now: State,
                     luck: nat -> Luck, w: Pid, log: seq<Round>, round: Round, patience: nat, from: nat)
    requires IsRun(start, run, was, luck) && IsRun(start, later, now, luck) && run <= later
    requires RoundsOk(run, was, w, log, patience, from) && from <= |run|
    requires RoundOk(later, now, w, round, patience, |run|)
    ensures RoundsOk(later, now, w, log + [round], patience, from)
    ensures HandledIn(log + [round]) == HandledIn(log) + if round.Handled? then 1 else 0
    ensures CalledIn(log + [round]) == CalledIn(log) + if round.Called() then 1 else 0
  {
    assert (log + [round])[..|log|] == log;
    forall i | 0 <= i < |log| ensures RoundOk(later, now, w, log[i], patience, from) {
      RoundKept(start, run, was, later, now, luck, w, log[i], patience, from);
    }
  }

  /** How the wait for a token ended: with the token, with the context, or with an
      error of the script. */
  datatype WaitEnd = TokenTaken | GaveUp | ScriptFailed

  class Processor {
    const world: World
    const w: Pid

    constructor (world: World, w: Pid)
      ensures this.world == world && this.w == w
    {
      this.world := world;
      this.w := w;
    }

    /** One call of `Allow`; none is returned on its error. */
    method Allow() returns (granted: Option<bool>)
      requires world.Valid() && w in world.st.workers && Pc(world.st, w).Waiting?
      modifies world
      ensures world.Valid() && w in world.st.workers && old(world.run) <= world.run
      ensures granted.Some? ==>
        && Pc(world.st, w) == (if granted.value then Granted(old(Pc(world.st, w).msg)) else old(Pc(world.st, w)))
        && Asks(world.st.log, w) == old(Asks(world.st.log, w)) + [granted.value]
      ensures granted.None? ==>
        Pc(world.st, w).Idle? && CallFailed(world.run, w, LimiterWait, |old(world.run)|)
      ensures Deliveries(world.st.log, w) == old(Deliveries(world.st.log, w))
    {
      world.Others(WorkerActor(w));
      var o := world.Outcome();
      AskEffect(world.st, w, o);
      ghost var k := |world.run|;
      world.Do(Ask(w, o));
      assert world.run[k].step == Ask(w, o);
      granted := if o.Done? then Some(Pc(world.st, w).Granted?) else None;
    }

    /** The context is cancelled while the worker waits. */
    method GiveUp()
      requires world.Valid() && w in world.st.workers && Pc(world.st, w).Waiting?
      modifies world
      ensures world.Valid() && w in world.st.workers && Pc(world.st, w).Idle? && old(world.run) <= world.run
      ensures Deliveries(world.st.log, w) == old(Deliveries(world.st.log, w))
      ensures Asks(world.st.log, w) == old(Asks(world.st.log, w))
    {
      world.Others(WorkerActor(w));
      world.Do(WaitFails(w));
    }

    /** `limiter.Wait`: asks until the token is granted or the script fails; after
        `patience` more refusals the context is cancelled. */
    method Wait(patience: nat) returns (end: WaitEnd, ghost refusals: nat)
      requires world.Valid() && w in world.st.workers && Pc(world.st, w).Waiting?
      modifies world
      ensures world.Valid() && w in world.st.workers && old(world.run) <= world.run
      ensures Pc(world.st, w) == if end.TokenTaken? then Granted(old(Pc(world.st, w).msg)) else Idle
      ensures Deliveries(world.st.log, w) == old(Deliveries(world.st.log, w))
      ensures refusals <= patience && (end.GaveUp? ==> refusals == patience)
      ensures !end.ScriptFailed? ==>
        Asks(world.st.log, w) == old(Asks(world.st.log, w)) + Refusals(refusals) + [end.TokenTaken?]
      ensures end.ScriptFailed? ==> CallFailed(world.run, w, LimiterWait, |old(world.run)|)
    {
      ghost var asks, pc := Asks(world.st.log, w), Pc(world.st, w);
      var left := patience;
      refusals := 0;
      while true
        invariant refusals + left == patience
        invariant Asks(world.st.log, w) == asks + Refusals(refusals)
        invariant world.Valid() && w in world.st.workers && old(world.run) <= world.run && Pc(world.st, w) == pc
        invariant Deliveries(world.st.log, w) == old(Deliveries(world.st.log, w))
        decreases left
      {
        ghost var from := |world.run|;
        var granted := Allow();
        if granted.None? {
          StillFailed(world.run, world.run, w, LimiterWait, from, |old(world.run)|);
          return ScriptFailed, refusals;
        }
        if granted.value { return TokenTaken, refusals; }
        if left == 0 {
          GiveUp();
          return GaveUp, refusals;
        }
        OneMoreRefusal(asks, refusals);
        left, refusals := left - 1, refusals + 1;
      }
    }

    /** Acknowledges the message the worker is done with. */
    method Ack() returns (r: Result<(), ProcessError>)
      requires world.Valid() && w in world.st.workers && Pc(world.st, w).Acking?
      modifies world
      ensures world.Valid() && w in world.st.workers && Pc(world.st, w).Idle?
      ensures old(world.run) <= world.run && Extends(old(world.st), world.st)
      ensures Deliveries(world.st.log, w) == old(Deliveries(world.st.log, w))
      ensures r.Success? ==> Acknowledged(world.st, old(Pc(world.st, w).msg))
      ensures r.Failure? ==> r.error == Acknowledgement && CallFailed(world.run, w, r.error, |old(world.run)|)
    {
      world.Others(WorkerActor(w));
      var o := world.Outcome();
      AckEffect(world.st, w, o);
      ghost var run, m := world.run, Moment(world.st, AckEntry(w, o));
      world.Do(AckEntry(w, o));
      if o.Done? { return Success(()); }
      JustFailed(run, m, w, Acknowledgement);
      StillFailed(world.run, world.run, w, Acknowledgement, |run|, |old(world.run)|);
      r := Failure(Acknowledgement);
    }

    /** `delivery.Send` and its reply. */
    method Send() returns (reply: Reply)
      requires world.Valid() && w in world.st.workers && Pc(world.st, w).Granted?
      modifies world
      ensures world.Valid() && w in world.st.workers && old(world.run) <= world.run
      ensures Pc(world.st, w) == Answered(old(Pc(world.st, w).msg), reply)
      ensures OneDelivery(old(Deliveries(world.st.log, w)), Deliveries(world.st.log, w), w,
                          old(Pc(world.st, w).msg.notification), reply)
    {
      world.Others(WorkerActor(w));
      ghost var before, at := Deliveries(world.st.log, w), world.st.now;
      CallSendEffect(world.st, w);
      world.Do(CallSend(w));
      world.Others(WorkerActor(w));
      reply := world.Answer();
      SendReturnsEffect(world.st, w, reply);
      world.Do(SendReturns(w, reply));
      CallAndReply(before, w, Pc(world.st, w).msg.notification, at, reply);
    }

    /** Step a: the status write before the delivery. */
    method Begin() returns (ok: bool)
      requires world.Valid() && w in world.st.workers && Pc(world.st, w).Got?
      modifies world
      ensures world.Valid() && w in world.st.workers && old(world.run) <= world.run
      ensures Pc(world.st, w) == if ok then Waiting(old(Pc(world.st, w).msg)) else Idle
      ensures Deliveries(world.st.log, w) == old(Deliveries(world.st.log, w))
      ensures Asks(world.st.log, w) == old(Asks(world.st.log, w))
      ensures !ok ==> CallFailed(world.run, w, ProcessingStatus, |old(world.run)|)
      ensures ok ==>
        StatusWritten(world.run, world.st, |old(world.run)|, MarkProcessing(w, Done),
                      old(Pc(world.st, w).msg.notification.id), Processing, None, None)
    {
      world.Others(WorkerActor(w));
      RowFound(world.st, w);
      var o := world.Outcome();
      MarkProcessingWrites(world.st, w, o);
      ghost var run, s, id := world.run, world.st, Pc(world.st, w).msg.notification.id;
      world.Do(MarkProcessing(w, o));
      ok := o.Done?;
      if ok {
        JustWritten(run, s, world.st, MarkProcessing(w, Done), id, Processing, None, None);
        EarlierWrite(world.run, world.st, |run|, |old(world.run)|, MarkProcessing(w, Done), id, Processing, None, None);
      } else {
        JustFailed(run, Moment(s, MarkProcessing(w, o)), w, ProcessingStatus);
        StillFailed(world.run, world.run, w, ProcessingStatus, |run|, |old(world.run)|);
      }
    }

    /** Steps a to c: processing, rate limit, provider call. */
    method Deliver(patience: nat) returns (r: Result<Reply, ProcessError>)
      requires world.Valid() && w in world.st.workers && Pc(world.st, w).Got?
      modifies world
      ensures world.Valid() && w in world.st.workers && old(world.run) <= world.run
      ensures r.Failure? ==>
        && Pc(world.st, w).Idle? && (r.error == ProcessingStatus || r.error == LimiterWait)
        && Deliveries(world.st.log, w) == old(Deliveries(world.st.log, w))
        && (CallFailed(world.run, w, r.error, |old(world.run)|)
            || (&& r.error == LimiterWait
                && Asks(world.st.log, w) == old(Asks(world.st.log, w)) + Refusals(patience) + [false]))
      ensures r.Success? ==>
        && Pc(world.st, w) == Answered(old(Pc(world.st, w).msg), r.value)
        && OneDelivery(old(Deliveries(world.st.log, w)), Deliveries(world.st.log, w), w,
                       old(Pc(world.st, w).msg.notification), r.value)
      ensures r.Success? || r.error == LimiterWait ==>
        StatusWritten(world.run, world.st, |old(world.run)|, MarkProcessing(w, Done),
                      old(Pc(world.st, w).msg.notification.id), Processing, None, None)
    {
      var ok := Begin();
      if !ok { return Failure(ProcessingStatus); }
      ghost var begun, id, run := world.st, Pc(world.st, w).msg.notification.id, world.run;
      r := AskAndSend(patience);
      Kept(run, begun, |old(world.run)|, MarkProcessing(w, Done), id, Processing, None, None);
      if r.Failure? && CallFailed(world.run, w, LimiterWait, |run|) {
        StillFailed(world.run, world.run, w, LimiterWait, |run|, |old(world.run)|);
      }
    }

    /** Steps b and c. */
    method AskAndSend(patience: nat) returns (r: Result<Reply, ProcessError>)
      requires world.Valid() && w in world.st.workers && Pc(world.st, w).Waiting?
      modifies world
      ensures world.Valid() && w in world.st.workers && old(world.run) <= world.run
      ensures r.Failure? ==>
        && Pc(world.st, w).Idle? && r.error == LimiterWait
        && Deliveries(world.st.log, w) == old(Deliveries(world.st.log, w))
        && (CallFailed(world.run, w, LimiterWait, |old(world.run)|)
            || Asks(world.st.log, w) == old(Asks(world.st.log, w)) + Refusals(patience) + [false])
      ensures r.Success? ==>
        && Pc(world.st, w) == Answered(old(Pc(world.st, w).msg), r.value)
        && OneDelivery(old(Deliveries(world.st.log, w)), Deliveries(world.st.log, w), w,
                       old(Pc(world.st, w).msg.notification), r.value)
    {
      ghost var from := |world.run|;
      var end, _ := Wait(patience);
      if end.ScriptFailed? { StillFailed(world.run, world.run, w, LimiterWait, from, |old(world.run)|); }
      if !end.TokenTaken? { return Failure(LimiterWait); }
      var reply := Send();
      r := Success(reply);
    }

    /** What a worker's earlier writes have come to, later in the run. */
    lemma Kept(run: seq<Moment>, was: State, from: nat, step: Step, id: Uuid, status: Status,
               providerId: Option<string>, error: Option<string>)
      requires world.Valid() && IsRun(world.start, run, was, world.luck) && run <= world.run
      requires StatusWritten(run, was, from, step, id, status, providerId, error)
      ensures StatusWritten(world.run, world.st, from, step, id, status, providerId, error)
    {
      StillWritten(world.start, run, was, world.run, world.st, world.luck, from, step,
                   id, status, providerId, error);
    }

    /** The status write of step d. */
    method MarkAsDelivered() returns (ok: bool)
      requires world.Valid() && w in world.st.workers && Pc(world.st, w).Accepted?
      modifies world
      ensures world.Valid() && w in world.st.workers && old(world.run) <= world.run
      ensures Pc(world.st, w) == if ok then Acking(old(Pc(world.st, w).msg)) else Idle
      ensures Deliveries(world.st.log, w) == old(Deliveries(world.st.log, w))
      ensures !ok ==> CallFailed(world.run, w, DeliveredStatus, |old(world.run)|)
      ensures ok ==>
        && Recorded(world.st.rows, old(Pc(world.st, w).msg.notification), Success(old(Pc(world.st, w).providerId)))
        && StatusWritten(world.run, world.st, |old(world.run)|, MarkDelivered(w, Done),
                         old(Pc(world.st, w).msg.notification.id), Delivered,
                         Some(old(Pc(world.st, w).providerId)), None)
    {
      world.Others(WorkerActor(w));
      RowFound(world.st, w);
      var o := world.Outcome();
      MarkDeliveredWrites(world.st, w, o);
      ghost var run, s, pc := world.run, world.st, Pc(world.st, w);
      world.Do(MarkDelivered(w, o));
      ok := o.Done?;
      if ok {
        JustWritten(run, s, world.st, MarkDelivered(w, Done), pc.msg.notification.id, Delivered,
                    Some(pc.providerId), None);
        EarlierWrite(world.run, world.st, |run|, |old(world.run)|, MarkDelivered(w, Done), pc.msg.notification.id,
                     Delivered, Some(pc.providerId), None);
      } else {
        JustFailed(run, Moment(s, MarkDelivered(w, o)), w, DeliveredStatus);
        StillFailed(world.run, world.run, w, DeliveredStatus, |run|, |old(world.run)|);
      }
    }

    /** Step d: mark as delivered, then acknowledge. */
    method RecordSuccess() returns (r: Result<(), ProcessError>)
      requires world.Valid() && w in world.st.workers && Pc(world.st, w).Accepted?
      modifies world
      ensures world.Valid() && w in world.st.workers && Pc(world.st, w).Idle? && old(world.run) <= world.run
      ensures Deliveries(world.st.log, w) == old(Deliveries(world.st.log, w))
      ensures r.Success? ==> Acknowledged(world.st, old(Pc(world.st, w).msg))
      ensures r.Success? || r.error == Acknowledgement ==>
        && Recorded(world.st.rows, old(Pc(world.st, w).msg.notification), Success(old(Pc(world.st, w).providerId)))
        && StatusWritten(world.run, world.st, |old(world.run)|, MarkDelivered(w, Done),
                         old(Pc(world.st, w).msg.notification.id), Delivered,
                         Some(old(Pc(world.st, w).providerId)), None)
      ensures r.Failure? ==> r.error == DeliveredStatus || r.error == Acknowledgement
      ensures r.Failure? ==> CallFailed(world.run, w, r.error, |old(world.run)|)
    {
      ghost var pc := Pc(world.st, w);
      var ok := MarkAsDelivered();
      if !ok { return Failure(DeliveredStatus); }
      ghost var run, s := world.run, world.st;
      r := Ack();
      Kept(run, s, |old(world.run)|, MarkDelivered(w, Done), pc.msg.notification.id, Delivered,
           Some(pc.providerId), None);
      if r.Failure? { StillFailed(world.run, world.run, w, r.error, |run|, |old(world.run)|); }
    }

    /** The retry time of step e, or none. */
    method Plan() returns (ghost at: nat)
      requires world.Valid() && w in world.st.workers && Pc(world.st, w).Rejected?
      modifies world
      ensures world.Valid() && w in world.st.workers && old(world.run) <= world.run
      ensures |old(world.run)| <= at < |world.run| && world.run[at].step == PlanRetry(w, world.luck(at).jitter)
      ensures var pc, pc' := old(Pc(world.st, w)), Pc(world.st, w);
        && pc'.Planned? && pc'.msg == pc.msg && pc'.error == pc.error
        && Plans(world.st.cfg, pc.msg.notification, world.run[at].before.now, world.run[at].step.jitter, pc'.next)
      ensures Deliveries(world.st.log, w) == old(Deliveries(world.st.log, w))
    {
      world.Others(WorkerActor(w));
      var jitter := world.Random();
      PlanRetryPlans(world.st, w, jitter);
      at := |world.run|;
      world.Do(PlanRetry(w, jitter));
    }

    /** At or after step `from` the attempt that carried `n` was counted: step `at` planned
        the next one, and a later step wrote the plan and the instant of the attempt. */
    ghost predicate CountedAt(run: seq<Moment>, now: State, at: nat, from: nat, n: Notification) {
      && from <= at < |run| && run[at].step == PlanRetry(w, world.luck(at).jitter)
      && exists k, next :: CountedBy(run, now, at, n, k, next)
    }

    ghost predicate CountedBy(run: seq<Moment>, now: State, at: nat, n: Notification, k: nat, next: Option<int>)
      requires at < |run| && run[at].step.PlanRetry?
    {
      && at < k < |run| && run[k].step == CountAttempt(w, Done)
      && Plans(now.cfg, n, run[at].before.now, run[at].step.jitter, next)
      && CountWritten(run, now, k, n.id, next)
    }

    /** The attempt write of step e. */
    method Count() returns (ok: bool, ghost k: nat)
      requires world.Valid() && w in world.st.workers && Pc(world.st, w).Planned?
      modifies world
      ensures world.Valid() && w in world.st.workers && old(world.run) <= world.run
      ensures |old(world.run)| <= k < |world.run|
      ensures world.st.cfg == old(world.st.cfg)
      ensures Pc(world.st, w) == if ok then Counted(old(Pc(world.st, w).msg), old(Pc(world.st, w).error)) else Idle
      ensures Deliveries(world.st.log, w) == old(Deliveries(world.st.log, w))
      ensures !ok ==> CallFailed(world.run, w, AttemptCount, |old(world.run)|)
      ensures ok ==>
        && world.run[k].step == CountAttempt(w, Done)
        && CountWritten(world.run, world.st, k, old(Pc(world.st, w).msg.notification.id), old(Pc(world.st, w).next))
    {
      world.Others(WorkerActor(w));
      RowFound(world.st, w);
      var o := world.Outcome();
      CountAttemptWrites(world.st, w, o);
      k := |world.run|;
      ghost var run, s := world.run, world.st;
      world.Do(CountAttempt(w, o));
      ok := o.Done?;
      if !ok {
        JustFailed(run, Moment(s, CountAttempt(w, o)), w, AttemptCount);
        StillFailed(world.run, world.run, w, AttemptCount, |run|, |old(world.run)|);
      }
    }

    /** The attempt is counted with or without a retry time. */
    method PlanAndCount() returns (ok: bool, ghost at: nat)
      requires world.Valid() && w in world.st.workers && Pc(world.st, w).Rejected?
      modifies world
      ensures world.Valid() && w in world.st.workers && old(world.run) <= world.run
      ensures Pc(world.st, w) == if ok then Counted(old(Pc(world.st, w).msg), old(Pc(world.st, w).error)) else Idle
      ensures Deliveries(world.st.log, w) == old(Deliveries(world.st.log, w))
      ensures ok ==> CountedAt(world.run, world.st, at, |old(world.run)|, old(Pc(world.st, w).msg.notification))
      ensures !ok ==> CallFailed(world.run, w, AttemptCount, |old(world.run)|)
    {
      ghost var pc := Pc(world.st, w);
      at := Plan();
      ghost var planned, moment := world.run, world.run[at];
      ghost var k;
      ghost var plan := Pc(world.st, w).next;
      ok, k := Count();
      assert world.run[at] == moment;
      if ok { assert CountedBy(world.run, world.st, at, pc.msg.notification, k, plan); }
      if !ok { StillFailed(world.run, world.run, w, AttemptCount, |planned|, |old(world.run)|); }
    }

    /** Step e: count the attempt, mark as failed, then acknowledge. */
    method RecordFailure() returns (r: Result<(), ProcessError>, ghost at: nat)
      requires world.Valid() && w in world.st.workers && Pc(world.st, w).Rejected?
      modifies world
      ensures world.Valid() && w in world.st.workers && Pc(world.st, w).Idle? && old(world.run) <= world.run
      ensures Deliveries(world.st.log, w) == old(Deliveries(world.st.log, w))
      ensures r.Success? ==> Acknowledged(world.st, old(Pc(world.st, w).msg))
      ensures r.Success? || r.error == FailedStatus || r.error == Acknowledgement ==>
        && Recorded(world.st.rows, old(Pc(world.st, w).msg.notification), Failure(old(Pc(world.st, w).error)))
        && CountedAt(world.run, world.st, at, |old(world.run)|, old(Pc(world.st, w).msg.notification))
      ensures r.Success? || r.error == Acknowledgement ==>
        StatusWritten(world.run, world.st, |old(world.run)|, MarkFailed(w, Done),
                      old(Pc(world.st, w).msg.notification.id), Failed, None, Some(old(Pc(world.st, w).error)))
      ensures r.Failure? ==> r.error == AttemptCount || r.error == FailedStatus || r.error == Acknowledgement
      ensures r.Failure? ==> CallFailed(world.run, w, r.error, |old(world.run)|)
    {
      ghost var pc := Pc(world.st, w);
      var ok;
      ok, at := PlanAndCount();
      if !ok { return Failure(AttemptCount), at; }
      ghost var run, s := world.run, world.st;
      r := FinishFailure();
      CountKept(run, s, at, |old(world.run)|, pc.msg.notification);
      if r.Success? || r.error == Acknowledgement {
        EarlierWrite(world.run, world.st, |run|, |old(world.run)|, MarkFailed(w, Done), pc.msg.notification.id,
                     Failed, None, Some(pc.error));
      }
      if r.Failure? { StillFailed(world.run, world.run, w, r.error, |run|, |old(world.run)|); }
    }

    lemma CountKept(run: seq<Moment>, was: State, at: nat, from: nat, n: Notification)
      requires world.Valid() && IsRun(world.start, run, was, world.luck) && run <= world.run
      requires was.cfg == world.st.cfg && CountedAt(run, was, at, from, n)
      ensures CountedAt(world.run, world.st, at, from, n)
    {
      var k: nat, next: Option<int> :| CountedBy(run, was, at, n, k, next);
      StatesKept(world.start, run, was, world.run, world.st, world.luck, k);
      StatesKept(world.start, run, was, world.run, world.st, world.luck, k + 1);
      assert world.run[at] == run[at] && world.run[k] == run[k];
      assert CountedBy(world.run, world.st, at, n, k, next);
    }

    /** The status write of step e. */
    method MarkAsFailed() returns (ok: bool)
      requires world.Valid() && w in world.st.workers && Pc(world.st, w).Counted?
      modifies world
      ensures world.Valid() && w in world.st.workers && old(world.run) <= world.run
      ensures world.st.cfg == old(world.st.cfg)
      ensures Pc(world.st, w) == if ok then Acking(old(Pc(world.st, w).msg)) else Idle
      ensures Deliveries(world.st.log, w) == old(Deliveries(world.st.log, w))
      ensures Recorded(world.st.rows, old(Pc(world.st, w).msg.notification), Failure(old(Pc(world.st, w).error)))
      ensures !ok ==> CallFailed(world.run, w, FailedStatus, |old(world.run)|)
      ensures ok ==>
        StatusWritten(world.run, world.st, |old(world.run)|, MarkFailed(w, Done),
                      old(Pc(world.st, w).msg.notification.id), Failed, None, Some(old(Pc(world.st, w).error)))
    {
      world.Others(WorkerActor(w));
      var o := world.Outcome();
      MarkFailedEffect(world.st, w, o);
      MarkFailedWrites(world.st, w, o);
      RowFound(world.st, w);
      ghost var run, s, pc := world.run, world.st, Pc(world.st, w);
      world.Do(MarkFailed(w, o));
      ok := o.Done?;
      if ok {
        JustWritten(run, s, world.st, MarkFailed(w, Done), pc.msg.notification.id, Failed, None, Some(pc.error));
        EarlierWrite(world.run, world.st, |run|, |old(world.run)|, MarkFailed(w, Done), pc.msg.notification.id,
                     Failed, None, Some(pc.error));
      } else {
        JustFailed(run, Moment(s, MarkFailed(w, o)), w, FailedStatus);
        StillFailed(world.run, world.run, w, FailedStatus, |run|, |old(world.run)|);
      }
    }

    /** The tail of step e, once the attempt is counted. */
    method FinishFailure() returns (r: Result<(), ProcessError>)
      requires world.Valid() && w in world.st.workers && Pc(world.st, w).Counted?
      modifies world
      ensures world.Valid() && w in world.st.workers && Pc(world.st, w).Idle? && old(world.run) <= world.run
      ensures world.st.cfg == old(world.st.cfg)
      ensures Deliveries(world.st.log, w) == old(Deliveries(world.st.log, w))
      ensures r.Success? ==> Acknowledged(world.st, old(Pc(world.st, w).msg))
      ensures Recorded(world.st.rows, old(Pc(world.st, w).msg.notification), Failure(old(Pc(world.st, w).error)))
      ensures r.Success? || r.error == Acknowledgement ==>
        StatusWritten(world.run, world.st, |old(world.run)|, MarkFailed(w, Done),
                      old(Pc(world.st, w).msg.notification.id), Failed, None, Some(old(Pc(world.st, w).error)))
      ensures r.Failure? ==> r.error == FailedStatus || r.error == Acknowledgement
      ensures r.Failure? ==> CallFailed(world.run, w, r.error, |old(world.run)|)
    {
      ghost var pc := Pc(world.st, w);
      var ok := MarkAsFailed();
      if !ok { return Failure(FailedStatus); }
      ghost var run, s := world.run, world.st;
      r := Ack();
      Kept(run, s, |old(world.run)|, MarkFailed(w, Done), pc.msg.notification.id, Failed, None, Some(pc.error));
      if r.Failure? { StillFailed(world.run, world.run, w, r.error, |run|, |old(world.run)|); }
    }

    /** The full lifecycle of one message. Whatever the other processes do: success
        means one provider call, its outcome in the table, and the entry acknowledged;
        an error names a call of this worker that failed, or the wait was given up after
        `patience + 1` refusals. The provider is called unless the error says that it
        came before, and `reply` is its answer, which only a failed write of the
        outcome keeps out of the table. On its way the row was `processing`, and then
        `delivered` with the provider's id, or `failed` with its error, the attempt
        counted and the next one planned at step `at` of the run. */
    method Process(patience: nat) returns (r: Result<(), ProcessError>, reply: Option<Reply>, ghost at: nat)
      requires world.Valid() && w in world.st.workers && Pc(world.st, w).Got?
      modifies world
      ensures world.Valid() && w in world.st.workers && Pc(world.st, w).Idle? && old(world.run) <= world.run
      ensures reply.None? <==> r.Failure? && (r.error == ProcessingStatus || r.error == LimiterWait)
      ensures if reply.None? then Deliveries(world.st.log, w) == old(Deliveries(world.st.log, w))
              else OneDelivery(old(Deliveries(world.st.log, w)), Deliveries(world.st.log, w), w,
                               old(Pc(world.st, w).msg.notification), reply.value)
      ensures r.Success? ==> Acknowledged(world.st, old(Pc(world.st, w).msg))
      ensures reply.Some? && (r.Success? || (r.error != DeliveredStatus && r.error != AttemptCount)) ==>
        Recorded(world.st.rows, old(Pc(world.st, w).msg.notification), reply.value)
      ensures r.Failure? ==>
        || CallFailed(world.run, w, r.error, |old(world.run)|)
        || (&& r.error == LimiterWait
            && Asks(world.st.log, w) == old(Asks(world.st.log, w)) + Refusals(patience) + [false])
      ensures r.Failure? && (r.error == AttemptCount || r.error == FailedStatus) ==> reply.value.Failure?
      ensures r.Failure? && r.error == DeliveredStatus ==> reply.value.Success?
      ensures r.Success? || r.error != ProcessingStatus ==>
        StatusWritten(world.run, world.st, |old(world.run)|, MarkProcessing(w, Done),
                      old(Pc(world.st, w).msg.notification.id), Processing, None, None)
      ensures reply.Some? && (r.Success? || r.error == Acknowledgement) ==>
        OutcomeWritten(world.run, world.st, |old(world.run)|, old(Pc(world.st, w).msg.notification.id), reply.value)
      ensures reply.Some? && reply.value.Failure? && (r.Success? || r.error != AttemptCount) ==>
        CountedAt(world.run, world.st, at, |old(world.run)|, old(Pc(world.st, w).msg.notification))
    {
      at := 0;
      var sent := Deliver(patience);
      if sent.Failure? { return Failure(sent.error), None, at; }
      reply := Some(sent.value);
      ghost var run, s, n := world.run, world.st, Pc(world.st, w).msg.notification;
      r, at := Record(sent.value);
      Kept(run, s, |old(world.run)|, MarkProcessing(w, Done), n.id, Processing, None, None);
      if r.Success? || r.error == Acknowledgement {
        EarlierOutcome(world.run, world.st, |run|, |old(world.run)|, n.id, reply.value);
      }
      if r.Failure? { StillFailed(world.run, world.run, w, r.error, |run|, |old(world.run)|); }
    }

    /** The status write that goes with the provider's answer. */
    ghost predicate OutcomeWritten(run: seq<Moment>, now: State, from: nat, id: Uuid, reply: Reply) {
      match reply
      case Success(providerId) =>
        StatusWritten(run, now, from, MarkDelivered(w, Done), id, Delivered, Some(providerId), None)
      case Failure(error) =>
        StatusWritten(run, now, from, MarkFailed(w, Done), id, Failed, None, Some(error))
    }

    lemma EarlierOutcome(run: seq<Moment>, now: State, from: nat, earlier: nat, id: Uuid, reply: Reply)
      requires OutcomeWritten(run, now, from, id, reply) && earlier <= from
      ensures OutcomeWritten(run, now, earlier, id, reply)
    {
      match reply
      case Success(providerId) =>
        EarlierWrite(run, now, from, earlier, MarkDelivered(w, Done), id, Delivered, Some(providerId), None);
      case Failure(error) =>
        EarlierWrite(run, now, from, earlier, MarkFailed(w, Done), id, Failed, None, Some(error));
    }

    /** Step d or e, as the provider's answer demands. */
    method Record(reply: Reply) returns (r: Result<(), ProcessError>, ghost at: nat)
      requires world.Valid() && w in world.st.workers && !Pc(world.st, w).Idle?
      requires Pc(world.st, w) == Answered(Pc(world.st, w).msg, reply)
      modifies world
      ensures world.Valid() && w in world.st.workers && Pc(world.st, w).Idle? && old(world.run) <= world.run
      ensures Deliveries(world.st.log, w) == old(Deliveries(world.st.log, w))
      ensures r.Success? ==> Acknowledged(world.st, old(Pc(world.st, w).msg))
      ensures r.Failure? ==>
        && CallFailed(world.run, w, r.error, |old(world.run)|)
        && (r.error == DeliveredStatus ==> reply.Success?)
        && (r.error == AttemptCount || r.error == FailedStatus ==> reply.Failure?)
        && r.error != ProcessingStatus && r.error != LimiterWait
      ensures r.Success? || (r.error != DeliveredStatus && r.error != AttemptCount) ==>
        Recorded(world.st.rows, old(Pc(world.st, w).msg.notification), reply)
      ensures r.Success? || r.error == Acknowledgement ==>
        OutcomeWritten(world.run, world.st, |old(world.run)|, old(Pc(world.st, w).msg.notification.id), reply)
      ensures reply.Failure? && (r.Success? || r.error != AttemptCount) ==>
        CountedAt(world.run, world.st, at, |old(world.run)|, old(Pc(world.st, w).msg.notification))
    {
      at := 0;
      if reply.Success? {
        r := RecordSuccess();
      } else {
        r, at := RecordFailure();
      }
    }

    /** `runWorker` until the context is cancelled after so many `rounds`. Each round
        reads the next message of the stream unless there is none, deals with it, and
        only then goes on. The provider is called once for each message that comes so
        far; for any other a call failed or the wait was given up. */
    method RunWorker(rounds: nat, patience: nat) returns (messages: nat, ghost log: seq<Round>)
      requires world.Valid() && w in world.st.workers && Pc(world.st, w).Idle?
      modifies world
      ensures world.Valid() && w in world.st.workers && Pc(world.st, w).Idle? && old(world.run) <= world.run
      ensures |log| == rounds && messages == HandledIn(log) <= rounds
      ensures RoundsOk(world.run, world.st, w, log, patience, |old(world.run)|)
      ensures |Deliveries(world.st.log, w)| == |old(Deliveries(world.st.log, w))| + 2 * CalledIn(log)
    {
      messages, log := 0, [];
      for round := 0 to rounds
        invariant world.Valid() && w in world.st.workers && Pc(world.st, w).Idle? && old(world.run) <= world.run
        invariant |log| == round && messages == HandledIn(log) <= round
        invariant RoundsOk(world.run, world.st, w, log, patience, |old(world.run)|)
        invariant |Deliveries(world.st.log, w)| == |old(Deliveries(world.st.log, w))| + 2 * CalledIn(log)
      {
        ghost var was, run := world.st, world.run;
        ghost var done;
        var handled;
        handled, done := OneRound(patience);
        OneMoreRound(world.start, run, was, world.run, world.st, world.luck, w, log, done, patience,
                     |old(world.run)|);
        if handled { messages := messages + 1; }
        log := log + [done];
      }
    }

    /** One round of the loop. */
    method OneRound(patience: nat) returns (handled: bool, ghost done: Round)
      requires world.Valid() && w in world.st.workers && Pc(world.st, w).Idle?
      modifies world
      ensures world.Valid() && w in world.st.workers && Pc(world.st, w).Idle? && old(world.run) <= world.run
      ensures RoundOk(world.run, world.st, w, done, patience, |old(world.run)|) && handled == done.Handled?
      ensures |Deliveries(world.st.log, w)|
           == |old(Deliveries(world.st.log, w))| + if done.Called() then 2 else 0
    {
      world.Others(WorkerActor(w));
      ghost var at := |world.run|;
      var stream := Streams.At(world.st.queues, world.st.workers[w].key);
      if stream.cursor >= |stream.entries| { return false, Empty(at); }
      handled, done := ReadAndProcess(patience);
    }

    /** A round that finds a message. */
    method ReadAndProcess(patience: nat) returns (handled: bool, ghost done: Round)
      requires world.Valid() && Inv(world.st) && w in world.st.workers
      requires var key := world.st.workers[w].key;
        Pc(world.st, w).Idle? && At(world.st.queues, key).cursor < |At(world.st.queues, key).entries|
      modifies world
      ensures world.Valid() && w in world.st.workers && Pc(world.st, w).Idle? && old(world.run) <= world.run
      ensures RoundOk(world.run, world.st, w, done, patience, |old(world.run)|) && handled == done.Handled?
      ensures |Deliveries(world.st.log, w)|
           == |old(Deliveries(world.st.log, w))| + if done.Called() then 2 else 0
    {
      ghost var at := |world.run|;
      var ok;
      ghost var o;
      ok, o := Read();
      if !ok { return false, ReadFailed(at, o); }
      ghost var was, run := world.st, world.run;
      var r, reply := ProcessAndLog(patience);
      MessageHandled(world.start, run, was, world.run, world.st, world.luck, w, at, r, reply, patience);
      return true, Handled(at, r, reply);
    }

    /** `runWorker` goes on whatever `Process` returns. */
    method ProcessAndLog(patience: nat) returns (r: Result<(), ProcessError>, reply: Option<Reply>)
      requires world.Valid() && w in world.st.workers && Pc(world.st, w).Got?
      modifies world
      ensures world.Valid() && w in world.st.workers && Pc(world.st, w).Idle? && old(world.run) <= world.run
      ensures reply.None? <==> r.Failure? && (r.error == ProcessingStatus || r.error == LimiterWait)
      ensures |Deliveries(world.st.log, w)|
           == |old(Deliveries(world.st.log, w))| + if reply.Some? then 2 else 0
      ensures r.Failure? ==>
        || CallFailed(world.run, w, r.error, |old(world.run)|)
        || (&& r.error == LimiterWait
            && Asks(world.st.log, w) == old(Asks(world.st.log, w)) + Refusals(patience) + [false])
    {
      ghost var at;
      r, reply, at := Process(patience);
    }

    /** `consumer.Dequeue` of one message. */
    method Read() returns (ok: bool, ghost o: Outcome)
      requires world.Valid() && Inv(world.st) && w in world.st.workers
      requires var key := world.st.workers[w].key;
        Pc(world.st, w).Idle? && At(world.st.queues, key).cursor < |At(world.st.queues, key).entries|
      modifies world
      ensures world.Valid() && w in world.st.workers && ok == o.Done?
      ensures world.run == old(world.run) + [Moment(old(world.st), Dequeue(w, o))]
      ensures if ok then Pc(world.st, w).Got? else Pc(world.st, w).Idle?
      ensures Deliveries(world.st.log, w) == old(Deliveries(world.st.log, w))
    {
      var outcome := world.Outcome();
      o := outcome;
      DequeueEffect(world.st, w, o);
      world.Do(Dequeue(w, outcome));
      ok := outcome.Done?;
    }
  }
}
