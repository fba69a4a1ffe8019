/** When a final status is final. The source calls `delivered`, `failed` and
    `cancelled` terminal, but its UPDATEs are unconditional: a status lasts exactly
    as long as no process can still write it. */
module LifecyclePermanence {
  import opened Wrappers
  import opened Entity
  import opened NotificationTable
  import opened Streams
  import opened Lifecycle
  import opened LifecycleInvariant
  import opened LifecycleTransfers
  import opened LifecycleTokens
  import opened LifecycleSafety
  import TokenBucket

  /** An API call that has enqueued `id` and has yet to mark it as queued. */
  ghost predicate LateOn(s: State, pid: Pid, id: Uuid) {
    pid in s.creators && s.creators[pid].late == Some(id)
  }

  /** Someone can still write the row of `id`: the holder of its token, or a late
      API call. */
  ghost predicate WriterLeft(s: State, id: Uuid) {
    (exists p :: Holds(s, id, p)) || exists pid :: LateOn(s, pid, id)
  }

  /** The row that a single-row UPDATE names. */
  function Target(s: State, step: Step): Option<Uuid>
    requires Enabled(s, step)
  {
    match step
    case CreatorMark(pid, _) => Some(s.creators[pid].late.value)
    case CancelCall(id, _) => Some(id)
    case SchedMark(_, id, _) => Some(id)
    case MarkProcessing(w, _) => Some(Pc(s, w).msg.notification.id)
    case MarkDelivered(w, _) => Some(Pc(s, w).msg.notification.id)
    case CountAttempt(w, _) => Some(Pc(s, w).msg.notification.id)
    case MarkFailed(w, _) => Some(Pc(s, w).msg.notification.id)
    case _ => None
  }

  lemma WorkerRowsFrame(s: State, step: Step, id: Uuid)
    requires Enabled(s, step) && ByWorker(step) && id in s.rows && Target(s, step) != Some(id)
    ensures id in Apply(s, step).rows && Apply(s, step).rows[id] == s.rows[id]
  {
    if !UpdatesRow(step) { MovesLeaveRows(s, step); }
  }

  lemma RowsFrame(s: State, step: Step, id: Uuid)
    requires Enabled(s, step) && id in s.rows
    requires Target(s, step) != Some(id)
    requires step.Fetch? ==> id !in step.ids
    ensures id in Apply(s, step).rows && Apply(s, step).rows[id] == s.rows[id]
  {
    if ByWorker(step) {
      WorkerRowsFrame(s, step, id);
    } else if step.Persist? && step.o != Refused {
      InsertAddsExactly(s.rows, step.ns);
    }
  }

  /** Only holders and late calls write, apart from `Cancel`. */
  lemma WithoutWriterNobodyWrites(s: State, step: Step, id: Uuid)
    requires Inv(s) && Enabled(s, step) && id in s.rows && !WriterLeft(s, id)
    ensures step.CancelCall? || Target(s, step) != Some(id)
    ensures step.Fetch? ==> id !in step.ids
  {
    if ByWorker(step) {
      WithoutTokenNoWorkerWrites(s, step, id);
    } else {
      match step
      case CreatorMark(pid, _) => assert !LateOn(s, pid, id);
      case SchedMark(pid, _, _) => assert !Holds(s, id, AtSched(pid));
      case Fetch(_, _, _, _, _) => assert !Holds(s, id, AtRow);
      case _ =>
    }
  }

  lemma WithoutTokenNoWorkerWrites(s: State, step: Step, id: Uuid)
    requires Enabled(s, step) && ByWorker(step) && NoToken(s, id)
    ensures Target(s, step) != Some(id)
  {
    match step
    case MarkProcessing(w, _) => assert !Holds(s, id, AtWorker(w));
    case MarkDelivered(w, _) => assert !Holds(s, id, AtWorker(w));
    case CountAttempt(w, _) => assert !Holds(s, id, AtWorker(w));
    case MarkFailed(w, _) => assert !Holds(s, id, AtWorker(w));
    case _ =>
  }

  lemma WithoutTokenNothingIsSent(s: State, step: Step, id: Uuid)
    requires Enabled(s, step) && NoToken(s, id)
    ensures SendTimes(Apply(s, step).log, id) == SendTimes(s.log, id)
  {
    if ByWorker(step) {
      if step.CallSend? { assert !Holds(s, id, AtWorker(step.w)); }
    } else {
      ApiStepsLeaveWorkers(s, step);
    }
  }

  /** A late call comes from an enqueue of a token. */
  lemma LateComesFromToken(s: State, step: Step, pid: Pid, id: Uuid)
    requires Inv(s) && Enabled(s, step) && LateOn(Apply(s, step), pid, id)
    ensures LateOn(s, pid, id) || Holds(s, id, AtCreator(pid))
  {
    if !ByCreator(step) { OthersLeaveCreators(s, step); }
  }

  lemma StillNoWriter(s: State, step: Step, id: Uuid)
    requires Inv(s) && Enabled(s, step) && id in s.rows && !WriterLeft(s, id)
    ensures !WriterLeft(Apply(s, step), id)
  {
    var s' := Apply(s, step);
    if p :| Holds(s', id, p) { var q := Trace(s, step, id, p); }
    if pid :| LateOn(s', pid, id) { LateComesFromToken(s, step, pid, id); }
  }

  /** Without a writer left, a notification is never sent again. */
  lemma {:induction false} SilentWithoutWriter(s: State, steps: seq<Step>, id: Uuid)
    requires Inv(s) && ValidRun(s, steps) && id in s.rows && !WriterLeft(s, id)
    ensures SendTimes(After(s, steps).log, id) == SendTimes(s.log, id)
    decreases |steps|
  {
    if steps != [] {
      StepKeepsInvariant(s, steps[0]);
      StillNoWriter(s, steps[0], id);
      WithoutTokenNothingIsSent(s, steps[0], id);
      SilentWithoutWriter(Apply(s, steps[0]), steps[1..], id);
    }
  }

  /** Without a writer left, a row that cannot be cancelled never changes again. */
  lemma {:induction false} FrozenWithoutWriter(s: State, steps: seq<Step>, id: Uuid)
    requires Inv(s) && ValidRun(s, steps) && id in s.rows && !WriterLeft(s, id)
    requires s.rows[id].status.IsTerminal()
    ensures id in After(s, steps).rows && After(s, steps).rows[id] == s.rows[id]
    ensures !WriterLeft(After(s, steps), id)
    decreases |steps|
  {
    if steps != [] {
      var step := steps[0];
      StepKeepsInvariant(s, step);
      WithoutWriterNobodyWrites(s, step, id);
      StillNoWriter(s, step, id);
      if !step.CancelCall? { RowsFrame(s, step, id); }
      FrozenWithoutWriter(Apply(s, step), steps[1..], id);
    }
  }

  /** A cancel takes away the token of a scheduled row and nothing else. */
  lemma CancelLeaves(s: State, id: Uuid, o: Outcome)
    requires Inv(s) && Cancellable(s.rows, id) && !o.Refused?
    ensures var s' := Apply(s, CancelCall(id, o));
      && Inv(s') && id in s'.rows && s'.rows[id].status == Cancelled && s'.log == s.log && s'.workers == s.workers
      && (forall p :: Holds(s', id, p) <==> Holds(s, id, p) && p != AtRow)
      && (forall pid :: LateOn(s', pid, id) <==> LateOn(s, pid, id))
  {
    var s' := Apply(s, CancelCall(id, o));
    StepKeepsInvariant(s, CancelCall(id, o));
    forall p ensures Holds(s', id, p) <==> Holds(s, id, p) && p != AtRow {}
  }

  /** The only writer that a cancel removes. */
  predicate StillScheduled(row: Notification) { row.status == Pending && row.scheduledAt.Some? }

  lemma WritersAfterCancel(s: State, id: Uuid, o: Outcome)
    requires Inv(s) && Cancellable(s.rows, id) && !o.Refused?
    ensures WriterLeft(Apply(s, CancelCall(id, o)), id) <==> WriterLeft(s, id) && !StillScheduled(s.rows[id])
  {
    CancelLeaves(s, id, o);
    var s' := Apply(s, CancelCall(id, o));
    assert IdOk(s, id);
    if StillScheduled(s.rows[id]) {
      assert Holds(s, id, AtRow);
      assert forall p :: Holds(s, id, p) ==> p == AtRow;
      forall pid ensures !LateOn(s, pid, id) { if pid in s.creators { assert CreatorOk(s, s.creators[pid]); } }
    } else {
      assert !Holds(s, id, AtRow);
      if p :| Holds(s, id, p) { assert Holds(s', id, p); }
      if pid :| LateOn(s, pid, id) { assert LateOn(s', pid, id); }
    }
  }

  /** A notification cancelled while it is pending and scheduled stays cancelled and
      is never sent, whatever happens afterwards. */
  lemma CancelBeforeFetchSticks(s: State, id: Uuid, o: Outcome, steps: seq<Step>)
    requires Reachable(s) && id in s.rows && !o.Refused?
    requires s.rows[id].status == Pending && s.rows[id].scheduledAt.Some?
    requires ValidRun(Apply(s, CancelCall(id, o)), steps)
    ensures var last := After(Apply(s, CancelCall(id, o)), steps);
      && id in last.rows && last.rows[id].status == Cancelled
      && SendTimes(last.log, id) == []
  {
    ReachableInvariant(s);
    var s1 := Apply(s, CancelCall(id, o));
    CancelLeaves(s, id, o);
    WritersAfterCancel(s, id, o);
    FrozenWithoutWriter(s1, steps, id);
    SilentWithoutWriter(s1, steps, id);
    assert IdOk(s, id) && Holds(s, id, AtRow) && PastOf(s, id).sends == SendTimes(s.log, id);
  }

  // -------------------------------- a status that can still be overwritten

  lemma {:induction false} ErrorFreeIsValid(s: State, steps: seq<Step>)
    requires ErrorFree(s, steps)
    ensures ValidRun(s, steps)
    decreases |steps|
  {
    if steps != [] { ErrorFreeIsValid(Apply(s, steps[0]), steps[1..]); }
  }

  /** Some run without infrastructure errors gives the row another status than `was`. */
  ghost predicate CanLeave(s: State, id: Uuid, was: Status) {
    exists steps ::
      && ErrorFree(s, steps) && ValidRun(s, steps)
      && id in After(s, steps).rows && After(s, steps).rows[id].status != was
  }

  lemma LeftAlready(s: State, id: Uuid, was: Status)
    requires id in s.rows && s.rows[id].status != was
    ensures CanLeave(s, id, was)
  {
    assert ErrorFree(s, []) && ValidRun(s, []) && After(s, []) == s;
  }

  lemma LeaveAfter(s: State, step: Step, id: Uuid, was: Status)
    requires Enabled(s, step) && Orderly(s, step) && CanLeave(Apply(s, step), id, was)
    ensures CanLeave(s, id, was)
  {
    var s' := Apply(s, step);
    var steps :| && ErrorFree(s', steps) && ValidRun(s', steps)
                 && id in After(s', steps).rows && After(s', steps).rows[id].status != was;
    var all := [step] + steps;
    assert all[1..] == steps;
    assert ErrorFree(s, all) && ValidRun(s, all) && After(s, all) == After(s', steps);
  }

  /** The step that writes the row at once. */
  lemma LeaveNow(s: State, step: Step, id: Uuid, was: Status)
    requires Enabled(s, step) && Orderly(s, step)
    requires id in Apply(s, step).rows && Apply(s, step).rows[id].status != was
    ensures CanLeave(s, id, was)
  {
    LeftAlready(Apply(s, step), id, was);
    LeaveAfter(s, step, id, was);
  }

  ghost predicate Busy(s: State, w: Pid, id: Uuid) {
    && Inv(s) && w in s.workers && Holding(Pc(s, w)) && Pc(s, w).msg.notification.id == id && id in s.rows
  }

  lemma LeaveWhenSent(s: State, w: Pid, id: Uuid)
    requires Busy(s, w, id) && (Pc(s, w).Accepted? || Pc(s, w).Sending? || Pc(s, w).Granted?)
    ensures CanLeave(s, id, Cancelled)
    decreases if Pc(s, w).Accepted? then 0 else if Pc(s, w).Sending? then 1 else 2
  {
    if Pc(s, w).Accepted? {
      LeaveNow(s, MarkDelivered(w, Done), id, Cancelled);
    } else {
      var step := if Pc(s, w).Sending? then SendReturns(w, Success("id")) else CallSend(w);
      StepKeepsInvariant(s, step);
      LeaveWhenSent(Apply(s, step), w, id);
      LeaveAfter(s, step, id, Cancelled);
    }
  }

  lemma LeaveWhenRejected(s: State, w: Pid, id: Uuid)
    requires Busy(s, w, id) && (Pc(s, w).Rejected? || Pc(s, w).Planned? || Pc(s, w).Counted?)
    ensures CanLeave(s, id, Cancelled)
    decreases if Pc(s, w).Counted? then 0 else if Pc(s, w).Planned? then 1 else 2
  {
    if Pc(s, w).Counted? {
      LeaveNow(s, MarkFailed(w, Done), id, Cancelled);
    } else {
      var step := if Pc(s, w).Planned? then CountAttempt(w, Done) else PlanRetry(w, 0.0);
      StepKeepsInvariant(s, step);
      LeaveWhenRejected(Apply(s, step), w, id);
      LeaveAfter(s, step, id, Cancelled);
    }
  }

  lemma LeaveWhenAllowed(s: State, w: Pid, id: Uuid)
    requires Busy(s, w, id) && Pc(s, w).Waiting?
    requires TokenBucket.Take(s.cfg.limits, BucketOf(s, Pc(s, w).msg.notification.channel), Millis(s.now)).1.allowed
    ensures CanLeave(s, id, Cancelled)
  {
    StepKeepsInvariant(s, Ask(w, Done));
    LeaveWhenSent(Apply(s, Ask(w, Done)), w, id);
    LeaveAfter(s, Ask(w, Done), id, Cancelled);
  }

  /** A waiting worker gets its token after the announced wait. */
  lemma LeaveWhenWaiting(s: State, w: Pid, id: Uuid)
    requires Busy(s, w, id) && Pc(s, w).Waiting?
    ensures CanLeave(s, id, Cancelled)
  {
    var ch := Pc(s, w).msg.notification.channel;
    var reply := TokenBucket.Take(s.cfg.limits, BucketOf(s, ch), Millis(s.now)).1;
    if reply.allowed {
      LeaveWhenAllowed(s, w, id);
    } else {
      TokenBucket.RetryAfterIsExact(s.cfg.limits, BucketOf(s, ch), Millis(s.now), reply.waitMs);
      var s1 := Apply(s, Ask(w, Done));
      StepKeepsInvariant(s, Ask(w, Done));
      var tick := Tick(s.now + 1_000_000 * reply.waitMs);
      assert Millis(tick.to) == Millis(s.now) + reply.waitMs;
      StepKeepsInvariant(s1, tick);
      LeaveWhenAllowed(Apply(s1, tick), w, id);
      LeaveAfter(s1, tick, id, Cancelled);
      LeaveAfter(s, Ask(w, Done), id, Cancelled);
    }
  }

  lemma LeaveWhenHeld(s: State, w: Pid, id: Uuid)
    requires Busy(s, w, id)
    ensures CanLeave(s, id, Cancelled)
  {
    match Pc(s, w)
    case Got(_) => LeaveNow(s, MarkProcessing(w, Done), id, Cancelled);
    case Waiting(_) => LeaveWhenWaiting(s, w, id);
    case Granted(_) => LeaveWhenSent(s, w, id);
    case Sending(_) => LeaveWhenSent(s, w, id);
    case Accepted(_, _) => LeaveWhenSent(s, w, id);
    case _ => LeaveWhenRejected(s, w, id);
  }

  /** The next step of a worker that nothing holds up. */
  function NextStep(s: State, w: Pid): Step
    requires w in s.workers
  {
    match Pc(s, w)
    case Idle => Dequeue(w, Done)
    case Got(_) => MarkProcessing(w, Done)
    case Waiting(_) => Ask(w, Done)
    case Granted(_) => CallSend(w)
    case Sending(_) => SendReturns(w, Success("id"))
    case Accepted(_, _) => MarkDelivered(w, Done)
    case Rejected(_, _) => PlanRetry(w, 0.0)
    case Planned(_, _, _) => CountAttempt(w, Done)
    case Counted(_, _) => MarkFailed(w, Done)
    case Acking(_) => AckEntry(w, Done)
  }

  /** How many steps it is away from its next read. */
  function Stage(pc: WorkerPc): nat {
    match pc
    case Idle => 0
    case Acking(_) => 1
    case Accepted(_, _) => 2
    case Counted(_, _) => 2
    case Planned(_, _, _) => 3
    case Rejected(_, _) => 4
    case Sending(_) => 5
    case Granted(_) => 6
    case Waiting(_) => 7
    case Got(_) => 8
  }

  /** The bucket has a token for a waiting worker. */
  predicate MayPass(s: State, w: Pid)
    requires w in s.workers && s.cfg.limits.Valid()
  {
    Pc(s, w).Waiting? ==>
      TokenBucket.Take(s.cfg.limits, BucketOf(s, Pc(s, w).msg.notification.channel), Millis(s.now)).1.allowed
  }

  lemma NextStepAdvances(s: State, w: Pid)
    requires Inv(s) && w in s.workers && !Pc(s, w).Idle? && MayPass(s, w)
    ensures var step := NextStep(s, w);
      && ByWorker(step) && step.w == w && !step.Dequeue? && Enabled(s, step) && Orderly(s, step)
      && w in Apply(s, step).workers && Stage(Pc(Apply(s, step), w)) < Stage(Pc(s, w))
  {
    assert WorkerOk(s, s.workers[w]);
    assert Enabled(s, NextStep(s, w));
    WorkersKeepToThemselves(s, NextStep(s, w));
    StageFalls(s, w);
  }

  lemma StageFalls(s: State, w: Pid)
    requires w in s.workers && !Pc(s, w).Idle? && s.cfg.limits.Valid() && MayPass(s, w) && Enabled(s, NextStep(s, w))
    ensures Stage(EffectOfWorker(s, NextStep(s, w)).pc) < Stage(Pc(s, w))
  {
    if Pc(s, w).Waiting? { AskPasses(s, w); }
  }

  lemma AskPasses(s: State, w: Pid)
    requires Enabled(s, Ask(w, Done)) && MayPass(s, w)
    ensures EffectOfWorker(s, Ask(w, Done)).pc == Granted(Pc(s, w).msg)
  {
  }

  /** After a refusal and the announced wait the bucket has a token. */
  lemma WaitPasses(s: State, w: Pid) returns (tick: Step)
    requires Inv(s) && w in s.workers && !MayPass(s, w)
    ensures Enabled(s, Ask(w, Done)) && Inv(Apply(s, Ask(w, Done)))
    ensures tick.Tick? && Enabled(Apply(s, Ask(w, Done)), tick)
    ensures var s' := Apply(Apply(s, Ask(w, Done)), tick);
      && Inv(s') && s'.workers == s.workers && s'.rows == s.rows && s'.queues == s.queues && MayPass(s', w)
  {
    var ch := Pc(s, w).msg.notification.channel;
    var reply := TokenBucket.Take(s.cfg.limits, BucketOf(s, ch), Millis(s.now)).1;
    TokenBucket.RetryAfterIsExact(s.cfg.limits, BucketOf(s, ch), Millis(s.now), reply.waitMs);
    StepKeepsInvariant(s, Ask(w, Done));
    tick := Tick(s.now + 1_000_000 * reply.waitMs);
    assert Millis(tick.to) == Millis(s.now) + reply.waitMs;
    StepKeepsInvariant(Apply(s, Ask(w, Done)), tick);
  }

  lemma LeaveWhenNext(s: State, w: Pid, id: Uuid, i: nat)
    requires Inv(s) && id in s.rows && w in s.workers && Holds(s, id, AtStream(s.workers[w].key, i))
    requires Pc(s, w).Idle? && At(s.queues, s.workers[w].key).cursor == i
    ensures CanLeave(s, id, Cancelled)
  {
    StepKeepsInvariant(s, Dequeue(w, Done));
    LeaveWhenHeld(Apply(s, Dequeue(w, Done)), w, id);
    LeaveAfter(s, Dequeue(w, Done), id, Cancelled);
  }

  /** The worker deals with what it has and with all entries before this one, and then
      reads it. */
  lemma LeaveWhenUnread(s: State, w: Pid, id: Uuid, i: nat)
    requires Inv(s) && id in s.rows && w in s.workers && Holds(s, id, AtStream(s.workers[w].key, i))
    ensures CanLeave(s, id, Cancelled)
    decreases i - At(s.queues, s.workers[w].key).cursor, Stage(Pc(s, w)), if MayPass(s, w) then 0 else 1
  {
    var key := s.workers[w].key;
    var step := NextStep(s, w);
    if !MayPass(s, w) {
      var tick := WaitPasses(s, w);
      var s1 := Apply(s, Ask(w, Done));
      LeaveWhenUnread(Apply(s1, tick), w, id, i);
      LeaveAfter(s1, tick, id, Cancelled);
      LeaveAfter(s, step, id, Cancelled);
    } else if Pc(s, w).Idle? && At(s.queues, key).cursor == i {
      LeaveWhenNext(s, w, id, i);
    } else {
      if !Pc(s, w).Idle? { NextStepAdvances(s, w); }
      StepKeepsInvariant(s, step);
      StaysUnread(s, step, id, key, i);
      WorkersKeepToThemselves(s, step);
      WorkersOnStreams(s, step, key);
      LeaveWhenUnread(Apply(s, step), w, id, i);
      LeaveAfter(s, step, id, Cancelled);
    }
  }

  ghost predicate HasWorker(s: State, key: StreamKey) {
    exists w :: w in s.workers && s.workers[w].key == key
  }

  /** Every stream has a worker, as `WorkerPool.Start` sets it up. */
  ghost predicate Staffed(s: State) {
    forall key: StreamKey :: HasWorker(s, key)
  }

  lemma StaffedSame(s: State, s': State)
    requires Staffed(s) && s'.workers == s.workers
    ensures Staffed(s')
  {
    forall key: StreamKey ensures HasWorker(s', key) {
      assert HasWorker(s, key);
    }
  }

  lemma LeaveWhenQueued(s: State, id: Uuid, key: StreamKey, i: nat)
    requires Inv(s) && id in s.rows && Staffed(s) && Holds(s, id, AtStream(key, i))
    ensures CanLeave(s, id, Cancelled)
  {
    assert HasWorker(s, key);
    var w :| w in s.workers && s.workers[w].key == key;
    LeaveWhenUnread(s, w, id, i);
  }

  lemma LeaveWhenLate(s: State, pid: Pid, id: Uuid, was: Status)
    requires Inv(s) && LateOn(s, pid, id) && was != Queued
    ensures CanLeave(s, id, was)
  {
    assert CreatorOk(s, s.creators[pid]);
    LeaveNow(s, CreatorMark(pid, Done), id, was);
  }

  lemma LeaveWhenCreating(s: State, pid: Pid, id: Uuid)
    requires Inv(s) && Holds(s, id, AtCreator(pid))
    ensures CanLeave(s, id, Cancelled)
    decreases if s.creators[pid].late.Some? then 1 else 0
  {
    assert CreatorOk(s, s.creators[pid]);
    var step := if s.creators[pid].late.Some? then CreatorMark(pid, Done) else CreatorEnqueue(pid, id, Done);
    StepKeepsInvariant(s, step);
    if s.creators[pid].late.Some? {
      LeaveWhenCreating(Apply(s, step), pid, id);
    } else {
      LeaveWhenLate(Apply(s, step), pid, id, Cancelled);
    }
    LeaveAfter(s, step, id, Cancelled);
  }

  lemma LeaveWhenMarked(s: State, pid: Pid, id: Uuid)
    requires Inv(s) && Staffed(s) && Holds(s, id, AtSched(pid)) && s.scheds[pid].marked == Some(id)
    ensures CanLeave(s, id, Cancelled)
  {
    var step, n := SchedEnqueue(pid, Done), s.scheds[pid].todo[id];
    assert SchedOk(s, s.scheds[pid]);
    StepKeepsInvariant(s, step);
    StaffedSame(s, Apply(s, step));
    SchedEnqueues(s, pid, Done);
    assert Holds(Apply(s, step), id, NextPlace(s, n));
    LeaveWhenQueued(Apply(s, step), id, KeyOf(n), NextPlace(s, n).index);
    LeaveAfter(s, step, id, Cancelled);
  }

  lemma NextStaysFetched(s: State, pid: Pid, id: Uuid)
    requires Staffed(s) && Enabled(s, SchedEnqueue(pid, Done)) && Holds(s, id, AtSched(pid))
    requires s.scheds[pid].marked.value != id
    ensures var s' := Apply(s, SchedEnqueue(pid, Done));
      Staffed(s') && Holds(s', id, AtSched(pid)) && s'.scheds[pid].marked.None?
  {
    StaffedSame(s, Apply(s, SchedEnqueue(pid, Done)));
  }

  lemma LeaveWhenFetched(s: State, pid: Pid, id: Uuid)
    requires Inv(s) && Staffed(s) && Holds(s, id, AtSched(pid))
    ensures CanLeave(s, id, Cancelled)
    decreases if s.scheds[pid].marked.Some? then 1 else 0
  {
    assert SchedOk(s, s.scheds[pid]);
    if s.scheds[pid].marked.None? {
      LeaveNow(s, SchedMark(pid, id, Done), id, Cancelled);
    } else if s.scheds[pid].marked.value == id {
      LeaveWhenMarked(s, pid, id);
    } else {
      StepKeepsInvariant(s, SchedEnqueue(pid, Done));
      NextStaysFetched(s, pid, id);
      LeaveWhenFetched(Apply(s, SchedEnqueue(pid, Done)), pid, id);
      LeaveAfter(s, SchedEnqueue(pid, Done), id, Cancelled);
    }
  }

  lemma UnusedPid(used: set<Pid>) returns (pid: Pid)
    ensures pid !in used && forall x :: x in used ==> x < pid
  {
    if used == {} {
      pid := 0;
    } else {
      assert (forall x :: x !in used) ==> used == {};
      var x :| x in used;
      var above := UnusedPid(used - {x});
      pid := if x < above then above else x + 1;
      forall y | y in used ensures y < pid {
        assert y == x || y in used - {x};
      }
    }
  }

  lemma LeaveWhenDue(s: State, id: Uuid)
    requires id in s.rows && RetryQuery.Ready(s.rows[id], s.now)
    ensures CanLeave(s, id, Failed)
  {
    var pid := UnusedPid(s.scheds.Keys);
    LeaveNow(s, Fetch(pid, RetryQuery, {id}, s.now, Done), id, Failed);
  }

  lemma LeaveWhenRetryDue(s: State, id: Uuid)
    requires Inv(s) && id in s.rows && s.rows[id].status == Failed && Holds(s, id, AtRow)
    ensures CanLeave(s, id, Failed)
  {
    var due := s.rows[id].nextRetryAt.value;
    var tick := Tick(if due < s.now then s.now else due);
    LeaveWhenDue(Apply(s, tick), id);
    LeaveAfter(s, tick, id, Failed);
  }

  lemma LeaveWithWriter(s: State, id: Uuid)
    requires Inv(s) && Staffed(s) && id in s.rows && s.rows[id].status.IsTerminal() && WriterLeft(s, id)
    ensures CanLeave(s, id, s.rows[id].status)
  {
    assert IdOk(s, id);
    if pid :| LateOn(s, pid, id) {
      LeaveWhenLate(s, pid, id, s.rows[id].status);
    } else {
      var p :| Holds(s, id, p);
      match p
      case AtRow => LeaveWhenRetryDue(s, id);
      case AtCreator(pid) => LeaveWhenCreating(s, pid, id);
      case AtSched(pid) => LeaveWhenFetched(s, pid, id);
      case AtStream(key, i) => LeaveWhenQueued(s, id, key, i);
      case AtWorker(w) => LeaveWhenHeld(s, w, id);
    }
  }

  /** No run at all, with or without errors, gives the row another status. */
  ghost predicate IsFinal(s: State, id: Uuid)
    requires id in s.rows
  {
    forall steps :: ValidRun(s, steps) ==>
      id in After(s, steps).rows && After(s, steps).rows[id].status == s.rows[id].status
  }

  lemma FinalIffNoWriter(s: State, id: Uuid)
    requires Inv(s) && Staffed(s) && id in s.rows && s.rows[id].status.IsTerminal()
    ensures IsFinal(s, id) <==> !WriterLeft(s, id)
    ensures WriterLeft(s, id) ==> CanLeave(s, id, s.rows[id].status)
  {
    if WriterLeft(s, id) {
      LeaveWithWriter(s, id);
      var steps :| && ErrorFree(s, steps) && ValidRun(s, steps)
                   && id in After(s, steps).rows && After(s, steps).rows[id].status != s.rows[id].status;
    } else {
      forall steps | ValidRun(s, steps)
        ensures id in After(s, steps).rows && After(s, steps).rows[id].status == s.rows[id].status
      {
        FrozenWithoutWriter(s, steps, id);
      }
    }
  }

  /** A terminal status is final if and only if nobody is left who can write the row:
      no token anywhere and no API call that is late with its own update. If somebody
      is, it takes no infrastructure error to overwrite it. */
  lemma TerminalIsFinalIffNoWriter(s: State, id: Uuid)
    requires Reachable(s) && Staffed(s) && id in s.rows && s.rows[id].status.IsTerminal()
    ensures IsFinal(s, id) <==> !WriterLeft(s, id)
    ensures CanLeave(s, id, s.rows[id].status) <==> WriterLeft(s, id)
  {
    ReachableInvariant(s);
    FinalIffNoWriter(s, id);
  }

  /** For a delivered row that is: unless a late API call is still about to mark it
      as queued. */
  lemma DeliveredIsFinalIffNotLate(s: State, id: Uuid)
    requires Reachable(s) && Staffed(s) && id in s.rows && s.rows[id].status == Delivered
    ensures IsFinal(s, id) <==> forall pid :: !LateOn(s, pid, id)
    ensures CanLeave(s, id, Delivered) <==> exists pid :: LateOn(s, pid, id)
  {
    ReachableInvariant(s);
    assert IdOk(s, id);
    FinalIffNoWriter(s, id);
  }

  /** When a cancel sticks, told from the state before it: if the notification is still
      scheduled, or if nobody is left who can write its row. Otherwise some run without
      infrastructure errors overturns it. */
  lemma CancelSticksIff(s: State, id: Uuid, o: Outcome)
    requires Reachable(s) && Staffed(s) && Cancellable(s.rows, id) && !o.Refused?
    ensures var s' := Apply(s, CancelCall(id, o));
      && id in s'.rows && s'.rows[id].status == Cancelled
      && (IsFinal(s', id) <==> StillScheduled(s.rows[id]) || !WriterLeft(s, id))
      && (CanLeave(s', id, Cancelled) <==> !StillScheduled(s.rows[id]) && WriterLeft(s, id))
  {
    ReachableInvariant(s);
    CancelLeaves(s, id, o);
    WritersAfterCancel(s, id, o);
    StaffedSame(s, Apply(s, CancelCall(id, o)));
    FinalIffNoWriter(Apply(s, CancelCall(id, o)), id);
  }

  /** In particular it does not stick to a notification that is in a stream. */
  lemma CancelInStreamIsOverturned(s: State, id: Uuid, o: Outcome, key: StreamKey, i: nat)
    requires Reachable(s) && Staffed(s) && Cancellable(s.rows, id) && !o.Refused?
    requires Holds(s, id, AtStream(key, i))
    ensures CanLeave(Apply(s, CancelCall(id, o)), id, Cancelled)
  {
    ReachableInvariant(s);
    assert IdOk(s, id);
    assert !Holds(s, id, AtRow);
    CancelSticksIff(s, id, o);
  }
}
