/** No notification gets stuck: while it has a token, it takes no luck but the
    provider's to deliver it, or to use its attempts up. */
module LifecycleProgress {
  import opened Wrappers
  import opened Entity
  import opened NotificationTable
  import opened Streams
  import opened Lifecycle
  import opened LifecycleInvariant
  import opened LifecycleSteps
  import opened LifecycleTransfers
  import opened LifecycleTokens
  import opened LifecycleSafety
  import opened LifecycleMoves
  import opened LifecyclePermanence

  // ------------------------------------------------- runs without errors

  ghost predicate Path(s: State, steps: seq<Step>, t: State) {
    ErrorFree(s, steps) && ValidRun(s, steps) && After(s, steps) == t
  }

  /** Some run without infrastructure errors leads from `s` to `t`. */
  ghost predicate Leads(s: State, t: State) {
    exists steps :: Path(s, steps, t)
  }

  lemma LeadsNowhere(s: State)
    ensures Leads(s, s)
  {
    assert Path(s, [], s);
  }

  lemma LeadsAfter(s: State, step: Step, t: State)
    requires Enabled(s, step) && Orderly(s, step) && Leads(Apply(s, step), t)
    ensures Leads(s, t)
  {
    var steps :| Path(Apply(s, step), steps, t);
    assert ([step] + steps)[1..] == steps;
    assert Path(s, [step] + steps, t);
  }

  lemma LeadsNext(s: State, step: Step)
    requires Enabled(s, step) && Orderly(s, step)
    ensures Leads(s, Apply(s, step))
  {
    LeadsNowhere(Apply(s, step));
    LeadsAfter(s, step, Apply(s, step));
  }

  lemma {:induction false} PathOn(s: State, steps: seq<Step>, t: State, u: State)
    requires Path(s, steps, t) && Leads(t, u)
    ensures Leads(s, u)
    decreases |steps|
  {
    if steps != [] {
      PathOn(Apply(s, steps[0]), steps[1..], t, u);
      LeadsAfter(s, steps[0], u);
    }
  }

  lemma LeadsOn(s: State, t: State, u: State)
    requires Leads(s, t) && Leads(t, u)
    ensures Leads(s, u)
  {
    var steps :| Path(s, steps, t);
    PathOn(s, steps, t, u);
  }

  /** A state in which every stream has a worker. */
  ghost predicate Ready(s: State, id: Uuid) { Inv(s) && Staffed(s) && id in s.rows }

  lemma StaffedNext(s: State, step: Step)
    requires Staffed(s) && Enabled(s, step)
    ensures Staffed(Apply(s, step))
  {
    forall key: StreamKey ensures HasWorker(Apply(s, step), key) {
      assert HasWorker(s, key);
      var w :| w in s.workers && s.workers[w].key == key;
      StepKeepsKeys(s, step, w);
    }
  }

  lemma ReadyNext(s: State, step: Step, id: Uuid)
    requires Ready(s, id) && Enabled(s, step)
    ensures Ready(Apply(s, step), id) && Extends(s, Apply(s, step))
  {
    StepKeepsInvariant(s, step);
    StaffedNext(s, step);
  }

  // ----------------------------------------------------- to the stream

  /** The row's time comes. */
  lemma WhenDue(s: State, id: Uuid) returns (t: State, q: Query)
    requires Ready(s, id) && Holds(s, id, AtRow)
    ensures Leads(s, t) && Ready(t, id) && q.Ready(t.rows[id], t.now)
  {
    var row := s.rows[id];
    q := if row.status == Pending then ScheduledQuery else RetryQuery;
    var tick := Tick(if q.Due(row) < s.now then s.now else q.Due(row));
    t := Apply(s, tick);
    RowComesDue(row, q, s.now);
    ReadyNext(s, tick, id);
    LeadsNext(s, tick);
  }

  lemma RowComesDue(row: Notification, q: Query, now: int)
    requires RowToken(row).Some? && q == if row.status == Pending then ScheduledQuery else RetryQuery
    ensures q.Ready(row, if q.Due(row) < now then now else q.Due(row))
  {
  }

  /** Then it is fetched. */
  lemma FromRow(s: State, id: Uuid) returns (t: State, pid: Pid)
    requires Ready(s, id) && Holds(s, id, AtRow)
    ensures Leads(s, t) && Ready(t, id) && Holds(t, id, AtSched(pid))
  {
    var s1, q := WhenDue(s, id);
    pid := UnusedPid(s1.scheds.Keys);
    var fetch := Fetch(pid, q, {id}, s1.now, Done);
    t := Apply(s1, fetch);
    ReadyNext(s1, fetch, id);
    FetchMoves(s1, pid, q, {id}, s1.now, Done, id);
    LeadsNext(s1, fetch);
    LeadsOn(s, s1, t);
  }

  /** A scheduler enqueues what it has fetched. */
  lemma FromSched(s: State, pid: Pid, id: Uuid) returns (t: State, key: StreamKey, i: nat)
    requires Ready(s, id) && Holds(s, id, AtSched(pid))
    ensures Leads(s, t) && Ready(t, id) && Holds(t, id, AtStream(key, i))
    decreases match s.scheds[pid].marked case None => 1 case Some(x) => if x == id then 0 else 2
  {
    assert SchedOk(s, s.scheds[pid]);
    if s.scheds[pid].marked == Some(id) {
      var step, n := SchedEnqueue(pid, Done), s.scheds[pid].todo[id];
      t, key, i := Apply(s, step), KeyOf(n), NextPlace(s, n).index;
      SchedEnqueueMoves(s, pid, Done);
      ReadyNext(s, step, id);
      LeadsNext(s, step);
    } else {
      var step := if s.scheds[pid].marked.None? then SchedMark(pid, id, Done) else SchedEnqueue(pid, Done);
      ReadyNext(s, step, id);
      SchedNext(s, pid, id);
      t, key, i := FromSched(Apply(s, step), pid, id);
      LeadsAfter(s, step, t);
    }
  }

  lemma SchedNext(s: State, pid: Pid, id: Uuid)
    requires Holds(s, id, AtSched(pid)) && s.scheds[pid].marked != Some(id)
    requires var step := if s.scheds[pid].marked.None? then SchedMark(pid, id, Done) else SchedEnqueue(pid, Done);
      Enabled(s, step)
    ensures var step := if s.scheds[pid].marked.None? then SchedMark(pid, id, Done) else SchedEnqueue(pid, Done);
      && Holds(Apply(s, step), id, AtSched(pid))
      && Apply(s, step).scheds[pid].marked == if s.scheds[pid].marked.None? then Some(id) else None
  {
  }

  /** An API call enqueues what it has stored. */
  lemma FromCreator(s: State, pid: Pid, id: Uuid) returns (t: State, key: StreamKey, i: nat)
    requires Ready(s, id) && Holds(s, id, AtCreator(pid))
    ensures Leads(s, t) && Ready(t, id) && Holds(t, id, AtStream(key, i))
    decreases if s.creators[pid].late.Some? then 1 else 0
  {
    assert CreatorOk(s, s.creators[pid]);
    if s.creators[pid].late.None? {
      var step, n := CreatorEnqueue(pid, id, Done), s.creators[pid].todo[id];
      t, key, i := Apply(s, step), KeyOf(n), NextPlace(s, n).index;
      CreatorEnqueueMoves(s, pid, id, Done);
      ReadyNext(s, step, id);
      LeadsNext(s, step);
    } else {
      var step := CreatorMark(pid, Done);
      ReadyNext(s, step, id);
      t, key, i := FromCreator(Apply(s, step), pid, id);
      LeadsAfter(s, step, t);
    }
  }

  // ----------------------------------------------------- to the worker

  /** A worker of the stream deals with what it has and with all entries before this
      one, and then reads it. */
  lemma FromEntry(s: State, w: Pid, id: Uuid, i: nat) returns (t: State)
    requires Ready(s, id) && w in s.workers && Holds(s, id, AtStream(s.workers[w].key, i))
    ensures Leads(s, t) && Ready(t, id) && Busy(t, w, id) && Pc(t, w).Got?
    decreases i - At(s.queues, s.workers[w].key).cursor, Stage(Pc(s, w)), if MayPass(s, w) then 0 else 1
  {
    var key := s.workers[w].key;
    var step := NextStep(s, w);
    if !MayPass(s, w) {
      var tick := WaitPasses(s, w);
      var s1 := Apply(s, step);
      ReadyNext(s, step, id);
      ReadyNext(s1, tick, id);
      t := FromEntry(Apply(s1, tick), w, id, i);
      LeadsAfter(s1, tick, t);
      LeadsAfter(s, step, t);
    } else if Pc(s, w).Idle? && At(s.queues, key).cursor == i {
      t := ReadNow(s, w, id);
    } else {
      EntryComesNearer(s, w, id, i);
      ReadyNext(s, step, id);
      t := FromEntry(Apply(s, step), w, id, i);
      LeadsAfter(s, step, t);
    }
  }

  lemma ReadNow(s: State, w: Pid, id: Uuid) returns (t: State)
    requires Ready(s, id) && w in s.workers && Pc(s, w).Idle?
    requires Holds(s, id, AtStream(s.workers[w].key, At(s.queues, s.workers[w].key).cursor))
    ensures Leads(s, t) && Ready(t, id) && Busy(t, w, id) && Pc(t, w).Got?
  {
    t := Apply(s, Dequeue(w, Done));
    DequeueMoves(s, w, Done);
    ReadyNext(s, Dequeue(w, Done), id);
    LeadsNext(s, Dequeue(w, Done));
  }

  lemma EntryComesNearer(s: State, w: Pid, id: Uuid, i: nat)
    requires Ready(s, id) && w in s.workers && Holds(s, id, AtStream(s.workers[w].key, i)) && MayPass(s, w)
    requires Pc(s, w).Idle? ==> At(s.queues, s.workers[w].key).cursor != i
    ensures var key, step := s.workers[w].key, NextStep(s, w);
      && Enabled(s, step) && Orderly(s, step)
      && var s' := Apply(s, step);
         && w in s'.workers && s'.workers[w].key == key && Holds(s', id, AtStream(key, i))
         && (At(s'.queues, key).cursor > At(s.queues, key).cursor
             || (&& At(s'.queues, key).cursor == At(s.queues, key).cursor
                 && Stage(Pc(s', w)) < Stage(Pc(s, w))))
  {
    var key, step := s.workers[w].key, NextStep(s, w);
    if !Pc(s, w).Idle? { NextStepAdvances(s, w); }
    StaysUnread(s, step, id, key, i);
    WorkersKeepToThemselves(s, step);
    WorkersOnStreams(s, step, key);
    if step.Dequeue? { OneRead(s, step, key); }
  }

  lemma FromStream(s: State, id: Uuid, key: StreamKey, i: nat) returns (t: State, w: Pid)
    requires Ready(s, id) && Holds(s, id, AtStream(key, i))
    ensures Leads(s, t) && Ready(t, id) && Busy(t, w, id) && Pc(t, w).Got?
  {
    assert HasWorker(s, key);
    w :| w in s.workers && s.workers[w].key == key;
    t := FromEntry(s, w, id, i);
  }

  // ------------------------------------------------------ the provider

  predicate BeforeCall(pc: WorkerPc) { pc.Got? || pc.Waiting? || pc.Granted? }

  /** A worker with the message gets its token and calls the provider. */
  lemma ToCall(s: State, w: Pid, id: Uuid) returns (t: State)
    requires Ready(s, id) && Busy(s, w, id) && BeforeCall(Pc(s, w))
    ensures Leads(s, t) && Ready(t, id) && Busy(t, w, id) && Pc(t, w).Sending?
    decreases Stage(Pc(s, w)), if MayPass(s, w) then 0 else 1
  {
    var step := NextStep(s, w);
    if !MayPass(s, w) {
      var tick := WaitPasses(s, w);
      var s1 := Apply(s, step);
      ReadyNext(s, step, id);
      ReadyNext(s1, tick, id);
      t := ToCall(Apply(s1, tick), w, id);
      LeadsAfter(s1, tick, t);
      LeadsAfter(s, step, t);
    } else {
      NextStepAdvances(s, w);
      ReadyNext(s, step, id);
      CallComesNearer(s, w);
      if Pc(s, w).Granted? {
        t := Apply(s, step);
        LeadsNext(s, step);
      } else {
        t := ToCall(Apply(s, step), w, id);
        LeadsAfter(s, step, t);
      }
    }
  }

  lemma CallComesNearer(s: State, w: Pid)
    requires w in s.workers && BeforeCall(Pc(s, w)) && s.cfg.limits.Valid() && MayPass(s, w)
    requires Enabled(s, NextStep(s, w))
    ensures var pc := EffectOfWorker(s, NextStep(s, w)).pc;
      && pc == (if Pc(s, w).Got? then Waiting(Pc(s, w).msg)
                else if Pc(s, w).Waiting? then Granted(Pc(s, w).msg) else Sending(Pc(s, w).msg))
      && w in Apply(s, NextStep(s, w)).workers && Pc(Apply(s, NextStep(s, w)), w) == pc
  {
    if Pc(s, w).Waiting? { AskPasses(s, w); }
    WorkersKeepToThemselves(s, NextStep(s, w));
  }

  /** The provider accepts. */
  lemma ToDelivery(s: State, w: Pid, id: Uuid) returns (t: State)
    requires Ready(s, id) && Busy(s, w, id) && (Pc(s, w).Sending? || Pc(s, w).Accepted?)
    ensures Leads(s, t) && Ready(t, id) && t.rows[id].status == Delivered
    decreases if Pc(s, w).Sending? then 1 else 0
  {
    var step := if Pc(s, w).Sending? then SendReturns(w, Success("id")) else MarkDelivered(w, Done);
    ReadyNext(s, step, id);
    if Pc(s, w).Sending? {
      t := ToDelivery(Apply(s, step), w, id);
      LeadsAfter(s, step, t);
    } else {
      t := Apply(s, step);
      LeadsNext(s, step);
    }
  }

  predicate AfterRejection(pc: WorkerPc) { pc.Sending? || pc.Rejected? || pc.Planned? || pc.Counted? }

  /** The provider rejects, or has done so: the attempt is recorded, and if budget is
      left the row gets its token back. */
  lemma ToFailure(s: State, w: Pid, id: Uuid) returns (t: State)
    requires Ready(s, id) && Busy(s, w, id) && AfterRejection(Pc(s, w))
    ensures Leads(s, t) && Ready(t, id) && t.rows[id].status == Failed
    ensures |SendTimes(t.log, id)| == t.rows[id].attempts == |SendTimes(s.log, id)|
    ensures t.rows[id].attempts < t.rows[id].maxAttempts ==> Holds(t, id, AtRow)
    decreases match Pc(s, w) case Sending(_) => 3 case Rejected(_, _) => 2 case Planned(_, _, _) => 1 case _ => 0
  {
    if Pc(s, w).Counted? {
      t := ToFailedRow(s, w, id);
    } else {
      var step := match Pc(s, w)
        case Sending(_) => SendReturns(w, Failure("rejected"))
        case Rejected(_, _) => PlanRetry(w, 0.0)
        case _ => CountAttempt(w, Done);
      ReadyNext(s, step, id);
      RejectionKeepsSends(s, w, step, id);
      t := ToFailure(Apply(s, step), w, id);
      LeadsAfter(s, step, t);
    }
  }

  lemma RejectionKeepsSends(s: State, w: Pid, step: Step, id: Uuid)
    requires Busy(s, w, id) && AfterRejection(Pc(s, w)) && !Pc(s, w).Counted? && Enabled(s, step)
    requires step == match Pc(s, w)
                     case Sending(_) => SendReturns(w, Failure("rejected"))
                     case Rejected(_, _) => PlanRetry(w, 0.0)
                     case _ => CountAttempt(w, Done)
    ensures SendTimes(Apply(s, step).log, id) == SendTimes(s.log, id)
    ensures w in Apply(s, step).workers
    ensures var pc, pc' := Pc(s, w), Pc(Apply(s, step), w);
      && !pc'.Idle? && pc'.msg == pc.msg
      && match pc case Sending(_) => pc'.Rejected? case Rejected(_, _) => pc'.Planned? case _ => pc'.Counted?
  {
  }

  lemma ToFailedRow(s: State, w: Pid, id: Uuid) returns (t: State)
    requires Ready(s, id) && Busy(s, w, id) && Pc(s, w).Counted?
    ensures Leads(s, t) && Ready(t, id) && t.rows[id].status == Failed
    ensures |SendTimes(t.log, id)| == t.rows[id].attempts == |SendTimes(s.log, id)|
    ensures t.rows[id].attempts < t.rows[id].maxAttempts ==> Holds(t, id, AtRow)
  {
    var step := MarkFailed(w, Done);
    HeldBy(s, w);
    assert PastOf(s, id).sends == SendTimes(s.log, id);
    t := Apply(s, step);
    ReadyNext(s, step, id);
    LeadsNext(s, step);
    assert IdOk(t, id);
    assert t.rows[id].status == Failed && t.log == s.log && t.rows[id].attempts == s.rows[id].attempts;
    assert TokenAt(t, id, AtRow) == RowToken(t.rows[id]);
  }

  // --------------------------------------------------- the whole way

  /** From any place outside a worker, and from a worker that has not called yet, the
      token gets to a worker that calls the provider. */
  lemma ToProvider(s: State, id: Uuid, p: Place) returns (t: State, w: Pid)
    requires Ready(s, id) && Holds(s, id, p) && (p.AtWorker? ==> BeforeCall(Pc(s, p.w)))
    ensures Leads(s, t) && Ready(t, id) && Busy(t, w, id) && Pc(t, w).Sending?
    decreases match p case AtRow => 2 case AtCreator(_) => 1 case AtSched(_) => 1 case _ => 0
  {
    match p
    case AtRow =>
      var s1, pid := FromRow(s, id);
      t, w := ToProvider(s1, id, AtSched(pid));
      LeadsOn(s, s1, t);
    case AtCreator(pid) =>
      var s1, key, i := FromCreator(s, pid, id);
      t, w := ToProvider(s1, id, AtStream(key, i));
      LeadsOn(s, s1, t);
    case AtSched(pid) =>
      var s1, key, i := FromSched(s, pid, id);
      t, w := ToProvider(s1, id, AtStream(key, i));
      LeadsOn(s, s1, t);
    case AtStream(key, i) =>
      var s1;
      s1, w := FromStream(s, id, key, i);
      t := ToCall(s1, w, id);
      LeadsOn(s, s1, t);
    case AtWorker(v) =>
      w := v;
      t := ToCall(s, w, id);
  }

  /** Some run without infrastructure errors delivers the notification. */
  ghost predicate CanBeDelivered(s: State, id: Uuid) {
    exists t :: Leads(s, t) && id in t.rows && t.rows[id].status == Delivered
  }

  /** A provider call for it is under way or has just succeeded. */
  ghost predicate InCall(s: State, id: Uuid) {
    exists w :: Calls(s, w, id)
  }

  ghost predicate Calls(s: State, w: Pid, id: Uuid) {
    w in s.workers && (Pc(s, w).Sending? || Pc(s, w).Accepted?) && Pc(s, w).msg.notification.id == id
  }

  /** It has a token, and an attempt left or a call in hand. */
  ghost predicate HasChance(s: State, id: Uuid)
    requires id in s.rows
  {
    (exists p :: Holds(s, id, p)) && (|SendTimes(s.log, id)| < s.rows[id].maxAttempts || InCall(s, id))
  }

  lemma DeliverFrom(s: State, id: Uuid, p: Place)
    requires Ready(s, id) && Holds(s, id, p) && HasChance(s, id)
    ensures CanBeDelivered(s, id)
    decreases if p.AtWorker? then 1 else 0
  {
    if p.AtWorker? && AfterRejection(Pc(s, p.w)) && !Pc(s, p.w).Sending? {
      var t := ToFailure(s, p.w, id);
      NotInCall(s, p.w, id);
      SameBudget(s, t, id);
      assert Holds(t, id, AtRow);
      DeliverFrom(t, id, AtRow);
      var u :| Leads(t, u) && id in u.rows && u.rows[id].status == Delivered;
      LeadsOn(s, t, u);
    } else if p.AtWorker? && !BeforeCall(Pc(s, p.w)) {
      var t := ToDelivery(s, p.w, id);
    } else {
      var s1, w := ToProvider(s, id, p);
      var t := ToDelivery(s1, w, id);
      LeadsOn(s, s1, t);
    }
  }

  lemma NotInCall(s: State, w: Pid, id: Uuid)
    requires Busy(s, w, id) && !Pc(s, w).Sending? && !Pc(s, w).Accepted?
    ensures !InCall(s, id)
  {
    assert IdOk(s, id) && Holds(s, id, AtWorker(w));
    forall v ensures !Calls(s, v, id) {
      if Calls(s, v, id) { assert Holds(s, id, AtWorker(v)); }
    }
  }

  lemma SameBudget(s: State, t: State, id: Uuid)
    requires Inv(s) && Leads(s, t) && id in s.rows
    ensures id in t.rows && t.rows[id].maxAttempts == s.rows[id].maxAttempts
    ensures s.rows[id].attempts <= t.rows[id].attempts
  {
    var steps :| Path(s, steps, t);
    RunKeepsInvariant(s, steps);
  }

  // ------------------------------------------------ when it is hopeless

  lemma SendsOnlyGrow(s: State, step: Step, id: Uuid)
    requires Enabled(s, step)
    ensures |SendTimes(s.log, id)| <= |SendTimes(Apply(s, step).log, id)|
    ensures step.CallSend? && Pc(s, step.w).msg.notification.id == id ==>
              |SendTimes(s.log, id)| < |SendTimes(Apply(s, step).log, id)|
  {
    if !ByWorker(step) { ApiStepsLeaveWorkers(s, step); }
  }

  /** Only a call makes one, and only a reply leads from it. */
  lemma CallsComeFromCalls(s: State, step: Step, w: Pid, id: Uuid)
    requires Enabled(s, step) && Calls(Apply(s, step), w, id)
    ensures Calls(s, w, id) || (step.CallSend? && step.w == w && Pc(s, w).msg.notification.id == id)
  {
    if ByWorker(step) {
      WorkersKeepToThemselves(s, step);
      EffectCalls(s, step);
    } else {
      ApiStepsLeaveWorkers(s, step);
    }
  }

  lemma EffectCalls(s: State, step: Step)
    requires ByWorker(step) && Enabled(s, step)
    ensures var pc, pc' := Pc(s, step.w), EffectOfWorker(s, step).pc;
      pc'.Sending? || pc'.Accepted? ==>
        && !pc.Idle? && pc'.msg == pc.msg
        && (step.CallSend? || pc.Sending? || pc.Accepted?)
  {
  }

  lemma OnlyAcceptedDelivers(s: State, step: Step, id: Uuid)
    requires Inv(s) && Enabled(s, step) && id in s.rows && s.rows[id].status != Delivered
    requires id in Apply(s, step).rows && Apply(s, step).rows[id].status == Delivered
    ensures step.MarkDelivered? && Calls(s, step.w, id) && Holds(s, id, AtWorker(step.w))
  {
    if step.MarkDelivered? {
      MarksItsOwn(s, step.w, step.o, id);
    } else if ByWorker(step) {
      NoOtherWorkerDelivers(s, step, id);
    } else {
      NoApiDelivers(s, step, id);
    }
  }

  lemma MarksItsOwn(s: State, w: Pid, o: Outcome, id: Uuid)
    requires Enabled(s, MarkDelivered(w, o)) && id in s.rows
    requires id in Apply(s, MarkDelivered(w, o)).rows && Apply(s, MarkDelivered(w, o)).rows[id] != s.rows[id]
    ensures Pc(s, w).msg.notification.id == id && Calls(s, w, id) && Holds(s, id, AtWorker(w))
  {
  }

  lemma NoOtherWorkerDelivers(s: State, step: Step, id: Uuid)
    requires Enabled(s, step) && ByWorker(step) && !step.MarkDelivered? && id in s.rows
    ensures id in Apply(s, step).rows
    ensures Apply(s, step).rows[id].status == Delivered ==> s.rows[id].status == Delivered
  {
  }

  lemma NoApiDelivers(s: State, step: Step, id: Uuid)
    requires Inv(s) && Enabled(s, step) && !ByWorker(step) && id in s.rows
    ensures id in Apply(s, step).rows
    ensures Apply(s, step).rows[id].status == Delivered ==> s.rows[id].status == Delivered
  {
    StepKeepsInvariant(s, step);
    if step.Persist? && !step.o.Refused? { InsertAddsExactly(s.rows, step.ns); }
  }

  ghost predicate Hopeless(s: State, id: Uuid) {
    Inv(s) && id in s.rows && s.rows[id].status != Delivered && !HasChance(s, id)
  }

  lemma StaysHopeless(s: State, step: Step, id: Uuid)
    requires Hopeless(s, id) && Enabled(s, step)
    ensures Hopeless(Apply(s, step), id)
  {
    var s' := Apply(s, step);
    StepKeepsInvariant(s, step);
    assert IdOk(s, id) && IdOk(s', id) && PastOf(s', id).sends == SendTimes(s'.log, id);
    if s'.rows[id].status == Delivered {
      OnlyAcceptedDelivers(s, step, id);
      assert InCall(s, id);
    }
    if HasChance(s', id) {
      var q :| Holds(s', id, q);
      var p := Trace(s, step, id, q);
      SendsOnlyGrow(s, step, id);
      var w :| Calls(s', w, id);
      CallsComeFromCalls(s, step, w, id);
      assert InCall(s, id);
    }
  }

  lemma {:induction false} HopelessForGood(s: State, steps: seq<Step>, id: Uuid)
    requires Hopeless(s, id) && ValidRun(s, steps)
    ensures Hopeless(After(s, steps), id)
    decreases |steps|
  {
    if steps != [] {
      StaysHopeless(s, steps[0], id);
      HopelessForGood(Apply(s, steps[0]), steps[1..], id);
    }
  }

  // ------------------------------------------------------- the theorems

  /** No notification gets stuck: from every reachable state it can still be delivered,
      by a run without infrastructure errors, if and only if it is delivered already
      or has a token and an attempt left or a call in hand. */
  lemma DeliverableIffChance(s: State, id: Uuid)
    requires Reachable(s) && Staffed(s) && id in s.rows
    ensures CanBeDelivered(s, id) <==> s.rows[id].status == Delivered || HasChance(s, id)
  {
    ReachableInvariant(s);
    if s.rows[id].status == Delivered {
      LeadsNowhere(s);
    } else if HasChance(s, id) {
      var p :| Holds(s, id, p);
      DeliverFrom(s, id, p);
    } else if CanBeDelivered(s, id) {
      var t :| Leads(s, t) && id in t.rows && t.rows[id].status == Delivered;
      var steps :| Path(s, steps, t);
      HopelessForGood(s, steps, id);
    }
  }

  /** Without the condition no run delivers it, with or without errors. */
  lemma HopelessIsFinal(s: State, id: Uuid, steps: seq<Step>)
    requires Reachable(s) && id in s.rows && s.rows[id].status != Delivered && !HasChance(s, id)
    requires ValidRun(s, steps)
    ensures id in After(s, steps).rows && After(s, steps).rows[id].status != Delivered
  {
    ReachableInvariant(s);
    HopelessForGood(s, steps, id);
  }

  /** Some run without infrastructure errors makes as many calls as there are attempts
      allowed, and ends in failure. */
  ghost predicate CanBeUsedUp(s: State, id: Uuid)
    requires id in s.rows
  {
    exists t :: Leads(s, t) && UsedUp(t, id, s.rows[id].maxAttempts)
  }

  ghost predicate UsedUp(t: State, id: Uuid, attempts: int) {
    id in t.rows && t.rows[id].status == Failed && |SendTimes(t.log, id)| == t.rows[id].attempts == attempts
  }

  lemma UsedUpFrom(s: State, id: Uuid, p: Place)
    requires Ready(s, id) && Holds(s, id, p) && (p.AtWorker? ==> !Pc(s, p.w).Accepted?)
    ensures CanBeUsedUp(s, id)
    decreases s.rows[id].maxAttempts - s.rows[id].attempts, if p.AtWorker? && Pc(s, p.w).Counted? then 1 else 0
  {
    var s1, w := s, 0;
    if p.AtWorker? && !BeforeCall(Pc(s, p.w)) {
      w := p.w;
      LeadsNowhere(s);
    } else {
      s1, w := ToProvider(s, id, p);
    }
    var t := ToFailure(s1, w, id);
    LeadsOn(s, s1, t);
    SameBudget(s, s1, id);
    HeldBy(s1, w);
    assert PastOf(s1, id).sends == SendTimes(s1.log, id);
    SameBudget(s, t, id);
    assert IdOk(t, id);
    if t.rows[id].attempts < t.rows[id].maxAttempts {
      UsedUpFrom(t, id, AtRow);
      var u :| Leads(t, u) && UsedUp(u, id, t.rows[id].maxAttempts);
      LeadsOn(s, t, u);
    } else {
      assert UsedUp(t, id, s.rows[id].maxAttempts);
    }
  }

  /** The budget of `DeliveryBudget` is reached: as long as a notification has a token
      and its provider has not accepted it, all attempts allowed can be made. */
  lemma BudgetIsReached(s: State, id: Uuid, p: Place)
    requires Reachable(s) && Staffed(s) && Holds(s, id, p) && (p.AtWorker? ==> !Pc(s, p.w).Accepted?)
    ensures id in s.rows && CanBeUsedUp(s, id)
  {
    ReachableInvariant(s);
    if id !in s.rows { UnknownElsewhere(s, id, p); }
    UsedUpFrom(s, id, p);
  }
}
