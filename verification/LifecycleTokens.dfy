/** Where tokens come from and how long they live: no step creates a token for a
    notification that is in the table, and every move uses up a budget. */
module LifecycleTokens {
  import opened Wrappers
  import opened Entity
  import opened NotificationTable
  import opened Streams
  import opened Lifecycle
  import opened LifecycleInvariant
  import opened LifecycleSteps
  import opened LifecycleTransfers

  /** Moves left to a token, ten per attempt that is left. */
  function Rank(row: Notification, token: Token): int {
    var budget := 10 * (row.maxAttempts - row.attempts);
    match token
    case Scheduled => budget
    case RetryDue => budget
    case Creating(_) => budget - 1
    case Fetched(_) => budget - 1
    case Unread(_) => budget - 2
    case Held(pc) =>
      match pc
      case Got(_) => budget - 3
      case Waiting(_) => budget - 4
      case Granted(_) => budget - 5
      case Sending(_) => budget - 6
      case Accepted(_, _) => budget - 7
      case Rejected(_, _) => budget - 7
      case Planned(_, _, _) => budget - 8
      case Counted(_, _) => budget + 1 // the attempt is already off the budget
      case Idle => 0
      case Acking(_) => 0
  }

  function RankAt(s: State, id: Uuid, p: Place): int
    requires id in s.rows && TokenAt(s, id, p).Some?
  {
    Rank(s.rows[id], TokenAt(s, id, p).value)
  }

  lemma RankIsPositive(s: State, id: Uuid, p: Place)
    requires Inv(s) && id in s.rows && Holds(s, id, p)
    ensures 1 <= RankAt(s, id, p) <= 10 * s.rows[id].maxAttempts
  {
    assert IdOk(s, id);
  }

  /** The token at `q` after a step was at `p` before it: either untouched, or one
      move ahead. */
  ghost predicate ComesFrom(s: State, s': State, id: Uuid, q: Place, p: Place) {
    && id in s.rows && id in s'.rows && Holds(s, id, p) && Holds(s', id, q)
    && ((p == q && TokenAt(s', id, q) == TokenAt(s, id, p) && RankAt(s', id, q) == RankAt(s, id, p))
        || RankAt(s', id, q) == RankAt(s, id, p) - 1)
  }

  lemma Stays(s: State, s': State, id: Uuid, q: Place)
    requires id in s.rows && id in s'.rows && SameStake(s.rows[id], s'.rows[id])
    requires Holds(s', id, q) && TokenAt(s', id, q) == TokenAt(s, id, q)
    ensures ComesFrom(s, s', id, q, q)
  {
  }

  lemma TraceDrops(s: State, s': State, id: Uuid, q: Place)
    requires OnlyDrops(s, s') && id in s.rows && Holds(s', id, q)
    ensures ComesFrom(s, s', id, q, q) && TokenAt(s', id, q) == TokenAt(s, id, q)
  {
  }

  lemma TraceWrites(s: State, s': State, x: Uuid, id: Uuid, q: Place)
    requires OnlyWrites(s, s', x) && id in s.rows && Holds(s', id, q)
    ensures ComesFrom(s, s', id, q, q) && TokenAt(s', id, q) == TokenAt(s, id, q)
  {
  }

  lemma TraceCreatorEnqueue(s: State, pid: Pid, x: Uuid, o: Outcome, id: Uuid, q: Place) returns (p: Place)
    requires Inv(s) && Enabled(s, CreatorEnqueue(pid, x, o)) && id in s.rows
    requires Holds(Apply(s, CreatorEnqueue(pid, x, o)), id, q)
    ensures ComesFrom(s, Apply(s, CreatorEnqueue(pid, x, o)), id, q, p)
  {
    var s' := Apply(s, CreatorEnqueue(pid, x, o));
    assert CreatorOk(s, s.creators[pid]);
    var n := s.creators[pid].todo[x];
    if !o.Refused? && q == NextPlace(s, n) {
      assert q !in {AtRow} && id == n.id;
      p := AtCreator(pid);
    } else {
      p := q;
      Stays(s, s', id, q);
    }
  }

  lemma TraceSchedEnqueue(s: State, pid: Pid, o: Outcome, id: Uuid, q: Place) returns (p: Place)
    requires Inv(s) && Enabled(s, SchedEnqueue(pid, o)) && id in s.rows
    requires Holds(Apply(s, SchedEnqueue(pid, o)), id, q)
    ensures ComesFrom(s, Apply(s, SchedEnqueue(pid, o)), id, q, p)
  {
    var s' := Apply(s, SchedEnqueue(pid, o));
    assert SchedOk(s, s.scheds[pid]);
    var n := s.scheds[pid].todo[s.scheds[pid].marked.value];
    if !o.Refused? && q == NextPlace(s, n) {
      assert id == n.id;
      p := AtSched(pid);
    } else {
      p := q;
      Stays(s, s', id, q);
    }
  }

  lemma TraceFetch(s: State, pid: Pid, qy: Query, ids: set<Uuid>, at: int, o: Outcome, id: Uuid, q: Place)
    returns (p: Place)
    requires Enabled(s, Fetch(pid, qy, ids, at, o)) && id in s.rows
    requires Holds(Apply(s, Fetch(pid, qy, ids, at, o)), id, q)
    ensures ComesFrom(s, Apply(s, Fetch(pid, qy, ids, at, o)), id, q, p)
  {
    var s' := Apply(s, Fetch(pid, qy, ids, at, o));
    if q == AtSched(pid) {
      p := AtRow;
    } else {
      p := q;
      Stays(s, s', id, q);
    }
  }

  lemma TracePersist(s: State, pid: Pid, ns: seq<Notification>, o: Outcome, id: Uuid, q: Place)
    requires Enabled(s, Persist(pid, ns, o)) && id in s.rows
    requires Holds(Apply(s, Persist(pid, ns, o)), id, q)
    ensures ComesFrom(s, Apply(s, Persist(pid, ns, o)), id, q, q)
  {
    if !o.Refused? {
      InsertAddsExactly(s.rows, ns);
      assert id !in Ids(ns);
    }
  }

  lemma TraceDequeue(s: State, w: Pid, o: Outcome, id: Uuid, q: Place) returns (p: Place)
    requires QueuesOk(s) && Enabled(s, Dequeue(w, o)) && id in s.rows
    requires Holds(Apply(s, Dequeue(w, o)), id, q)
    ensures ComesFrom(s, Apply(s, Dequeue(w, o)), id, q, p)
  {
    var s' := Apply(s, Dequeue(w, o));
    if q == AtWorker(w) {
      var key := s.workers[w].key;
      p := AtStream(key, At(s.queues, key).cursor);
    } else {
      p := q;
      Stays(s, s', id, q);
    }
  }

  lemma TraceAck(s: State, w: Pid, o: Outcome, id: Uuid, q: Place)
    requires Enabled(s, AckEntry(w, o)) && id in s.rows
    requires Holds(Apply(s, AckEntry(w, o)), id, q)
    ensures ComesFrom(s, Apply(s, AckEntry(w, o)), id, q, q)
  {
    Stays(s, Apply(s, AckEntry(w, o)), id, q);
  }

  lemma TraceMarkProcessing(s: State, w: Pid, o: Outcome, id: Uuid, q: Place)
    requires Enabled(s, MarkProcessing(w, o)) && id in s.rows
    requires Holds(Apply(s, MarkProcessing(w, o)), id, q)
    ensures ComesFrom(s, Apply(s, MarkProcessing(w, o)), id, q, q)
  {
    var s' := Apply(s, MarkProcessing(w, o));
    if q != AtWorker(w) { Stays(s, s', id, q); }
  }

  lemma TraceMarkDelivered(s: State, w: Pid, o: Outcome, id: Uuid, q: Place)
    requires Enabled(s, MarkDelivered(w, o)) && id in s.rows
    requires Holds(Apply(s, MarkDelivered(w, o)), id, q)
    ensures ComesFrom(s, Apply(s, MarkDelivered(w, o)), id, q, q)
  {
    Stays(s, Apply(s, MarkDelivered(w, o)), id, q);
  }

  lemma TraceCount(s: State, w: Pid, o: Outcome, id: Uuid, q: Place)
    requires Inv(s) && Enabled(s, CountAttempt(w, o)) && id in s.rows
    requires Holds(Apply(s, CountAttempt(w, o)), id, q)
    ensures ComesFrom(s, Apply(s, CountAttempt(w, o)), id, q, q)
  {
    var s' := Apply(s, CountAttempt(w, o));
    if id != Pc(s, w).msg.notification.id {
      TraceCountOther(s, w, o, id, q);
    } else if !o.Refused? {
      HeldBy(s, w);
      CountAttemptCounts(s, w, o);
      CountKeepsToken(s, s', w);
    } else {
      assert OnlyDrops(s, s');
      TraceDrops(s, s', id, q);
    }
  }

  lemma TraceCountOther(s: State, w: Pid, o: Outcome, id: Uuid, q: Place)
    requires Enabled(s, CountAttempt(w, o)) && id in s.rows && id != Pc(s, w).msg.notification.id
    requires Holds(Apply(s, CountAttempt(w, o)), id, q)
    ensures ComesFrom(s, Apply(s, CountAttempt(w, o)), id, q, q)
  {
    Stays(s, Apply(s, CountAttempt(w, o)), id, q);
  }

  lemma TraceFail(s: State, w: Pid, o: Outcome, id: Uuid, q: Place) returns (p: Place)
    requires Inv(s) && Enabled(s, MarkFailed(w, o)) && id in s.rows
    requires Holds(Apply(s, MarkFailed(w, o)), id, q)
    ensures ComesFrom(s, Apply(s, MarkFailed(w, o)), id, q, p)
  {
    if id == Pc(s, w).msg.notification.id && !o.Refused? {
      p := AtWorker(w);
      TraceFailed(s, w, o, q);
    } else {
      p := q;
      Stays(s, Apply(s, MarkFailed(w, o)), id, q);
    }
  }

  lemma TraceFailed(s: State, w: Pid, o: Outcome, q: Place)
    requires Inv(s) && Enabled(s, MarkFailed(w, o)) && !o.Refused?
    requires var x := Pc(s, w).msg.notification.id; x in s.rows && Holds(Apply(s, MarkFailed(w, o)), x, q)
    ensures ComesFrom(s, Apply(s, MarkFailed(w, o)), Pc(s, w).msg.notification.id, q, AtWorker(w))
  {
    HeldBy(s, w);
    var x := Pc(s, w).msg.notification.id;
    assert forall r :: Holds(s, x, r) ==> r == AtWorker(w);
    assert q == AtRow || Holds(s, x, q);
  }

  lemma TraceCreatorMark(s: State, pid: Pid, o: Outcome, id: Uuid, q: Place)
    requires Inv(s) && Enabled(s, CreatorMark(pid, o)) && id in s.rows
    requires Holds(Apply(s, CreatorMark(pid, o)), id, q)
    ensures ComesFrom(s, Apply(s, CreatorMark(pid, o)), id, q, q)
  {
  }

  lemma TraceSchedMark(s: State, pid: Pid, x: Uuid, o: Outcome, id: Uuid, q: Place)
    requires Inv(s) && Enabled(s, SchedMark(pid, x, o)) && id in s.rows
    requires Holds(Apply(s, SchedMark(pid, x, o)), id, q)
    ensures ComesFrom(s, Apply(s, SchedMark(pid, x, o)), id, q, q)
  {
    var s' := Apply(s, SchedMark(pid, x, o));
    assert s.rows[id] == s'.rows[id] || q != AtRow;
    Stays(s, s', id, q);
  }

  lemma TraceAnswer(s: State, w: Pid, id: Uuid, q: Place)
    requires Enabled(s, Ask(w, Done)) && id in s.rows && Holds(Apply(s, Ask(w, Done)), id, q)
    ensures ComesFrom(s, Apply(s, Ask(w, Done)), id, q, q)
  {
    AskAdvances(s, w);
  }

  lemma TraceAsk(s: State, w: Pid, o: Outcome, id: Uuid, q: Place)
    requires Enabled(s, Ask(w, o)) && id in s.rows && Holds(Apply(s, Ask(w, o)), id, q)
    ensures ComesFrom(s, Apply(s, Ask(w, o)), id, q, q)
  {
    if o.Refused? {
      TraceDrops(s, Apply(s, Ask(w, o)), id, q);
    } else if o.Lost? {
      AskLostDrops(s, w);
      TraceDrops(Apply(s, Ask(w, Done)), Apply(s, Ask(w, Lost)), id, q);
      TraceAnswer(s, w, id, q);
    } else {
      TraceAnswer(s, w, id, q);
    }
  }

  lemma TraceCallSend(s: State, w: Pid, id: Uuid, q: Place)
    requires Enabled(s, CallSend(w)) && id in s.rows && Holds(Apply(s, CallSend(w)), id, q)
    ensures ComesFrom(s, Apply(s, CallSend(w)), id, q, q)
  {
  }

  lemma TraceSendReturns(s: State, w: Pid, reply: Result<string, string>, id: Uuid, q: Place)
    requires Enabled(s, SendReturns(w, reply)) && id in s.rows && Holds(Apply(s, SendReturns(w, reply)), id, q)
    ensures ComesFrom(s, Apply(s, SendReturns(w, reply)), id, q, q)
  {
  }

  lemma TracePlanRetry(s: State, w: Pid, jitter: real, id: Uuid, q: Place)
    requires Enabled(s, PlanRetry(w, jitter)) && id in s.rows && Holds(Apply(s, PlanRetry(w, jitter)), id, q)
    ensures ComesFrom(s, Apply(s, PlanRetry(w, jitter)), id, q, q)
  {
  }

  lemma TraceOthers(s: State, step: Step, id: Uuid, q: Place) returns (p: Place)
    requires Inv(s) && Enabled(s, step) && id in s.rows && Holds(Apply(s, step), id, q)
    requires !ByWorker(step)
    ensures ComesFrom(s, Apply(s, step), id, q, p)
  {
    p := q;
    match step
    case Tick(_) => TraceDrops(s, Apply(s, step), id, q);
    case Persist(pid, ns, o) => TracePersist(s, pid, ns, o, id, q);
    case CreatorEnqueue(pid, x, o) => p := TraceCreatorEnqueue(s, pid, x, o, id, q);
    case CreatorMark(pid, o) => TraceCreatorMark(s, pid, o, id, q);
    case CreatorStop(_) => TraceDrops(s, Apply(s, step), id, q);
    case CancelCall(x, _) => TraceWrites(s, Apply(s, step), x, id, q);
    case Fetch(pid, qy, ids, at, o) => p := TraceFetch(s, pid, qy, ids, at, o, id, q);
    case SchedMark(pid, x, o) => TraceSchedMark(s, pid, x, o, id, q);
    case SchedEnqueue(pid, o) => p := TraceSchedEnqueue(s, pid, o, id, q);
    case SchedStop(_) => TraceDrops(s, Apply(s, step), id, q);
  }

  /** Steps of the worker goroutines. */
  lemma ApiStepsLeaveWorkers(s: State, step: Step)
    requires Enabled(s, step) && !ByWorker(step)
    ensures Apply(s, step).workers == s.workers && Apply(s, step).log == s.log
  {
  }

  /** Workers leave API calls, schedulers, configuration and clock alone. */
  lemma WorkersLeaveProcesses(s: State, step: Step)
    requires Enabled(s, step) && ByWorker(step)
    ensures Apply(s, step).creators == s.creators && Apply(s, step).scheds == s.scheds
    ensures Apply(s, step).cfg == s.cfg && Apply(s, step).now == s.now
  {
  }

  predicate UpdatesRow(step: Step) {
    step.MarkProcessing? || step.MarkDelivered? || step.CountAttempt? || step.MarkFailed?
  }

  lemma OthersLeaveCreators(s: State, step: Step)
    requires Enabled(s, step) && !ByCreator(step)
    ensures Apply(s, step).creators == s.creators
  {
    if ByWorker(step) { WorkersLeaveProcesses(s, step); }
  }

  lemma OthersLeaveScheds(s: State, step: Step)
    requires Enabled(s, step) && !BySched(step)
    ensures Apply(s, step).scheds == s.scheds
  {
    if ByWorker(step) { WorkersLeaveProcesses(s, step); }
  }

  /** Only the read of its own entry moves a stream's group. */
  lemma StreamsGrow(s: State, step: Step, key: StreamKey)
    requires Enabled(s, step) && key in s.queues
    ensures key in Apply(s, step).queues && s.queues[key].entries <= Apply(s, step).queues[key].entries
    ensures !(step.Dequeue? && s.workers[step.w].key == key) ==>
              Apply(s, step).queues[key].cursor == s.queues[key].cursor
  {
    if ByWorker(step) { WorkersOnStreams(s, step, key); }
  }

  /** An entry stays unread until it is its turn. */
  lemma StaysUnread(s: State, step: Step, id: Uuid, key: StreamKey, i: nat)
    requires AllValid(s.queues) && Enabled(s, step) && Holds(s, id, AtStream(key, i))
    requires step.Dequeue? && s.workers[step.w].key == key ==> At(s.queues, key).cursor != i
    ensures Holds(Apply(s, step), id, AtStream(key, i))
  {
    StreamsGrow(s, step, key);
    if step.Dequeue? { OneRead(s, step, key); }
  }

  lemma OneRead(s: State, step: Step, key: StreamKey)
    requires Enabled(s, step) && step.Dequeue? && key in s.queues
    ensures key in Apply(s, step).queues && Apply(s, step).queues[key].cursor <= s.queues[key].cursor + 1
  {
  }

  lemma WorkersOnStreams(s: State, step: Step, key: StreamKey)
    requires Enabled(s, step) && ByWorker(step) && key in s.queues
    ensures key in Apply(s, step).queues && Apply(s, step).queues[key].entries == s.queues[key].entries
    ensures !(step.Dequeue? && s.workers[step.w].key == key) ==>
              Apply(s, step).queues[key].cursor == s.queues[key].cursor
  {
    if !step.Dequeue? && !step.AckEntry? { MostLeaveStreams(s, step); }
  }

  lemma MostLeaveStreams(s: State, step: Step)
    requires Enabled(s, step) && ByWorker(step) && !step.Dequeue? && !step.AckEntry?
    ensures Apply(s, step).queues == s.queues
  {
  }

  /** Only the four UPDATEs of a worker touch the table. */
  lemma MovesLeaveRows(s: State, step: Step)
    requires Enabled(s, step) && ByWorker(step) && !UpdatesRow(step)
    ensures Apply(s, step).rows == s.rows
  {
  }

  /** A worker moves only its own place in the code. */
  lemma WorkersKeepToThemselves(s: State, step: Step)
    requires Enabled(s, step) && ByWorker(step)
    ensures step.w in s.workers && step.w in Apply(s, step).workers
    ensures Apply(s, step).workers
         == s.workers[step.w := s.workers[step.w].(pc := Pc(Apply(s, step), step.w))]
  {
  }

  /** No worker changes its stream. */
  lemma StepKeepsKeys(s: State, step: Step, w: Pid)
    requires Enabled(s, step)
    ensures w in Apply(s, step).workers <==> w in s.workers
    ensures w in s.workers ==> Apply(s, step).workers[w].key == s.workers[w].key
  {
    if ByWorker(step) { WorkersKeepToThemselves(s, step); } else { ApiStepsLeaveWorkers(s, step); }
  }

  lemma TraceWorkers(s: State, step: Step, id: Uuid, q: Place) returns (p: Place)
    requires Inv(s) && Enabled(s, step) && id in s.rows && Holds(Apply(s, step), id, q)
    requires ByWorker(step)
    ensures ComesFrom(s, Apply(s, step), id, q, p)
  {
    p := q;
    match step
    case Dequeue(w, o) => p := TraceDequeue(s, w, o, id, q);
    case MarkFailed(w, o) => p := TraceFail(s, w, o, id, q);
    case _ => TraceInPlace(s, step, id, q);
  }

  /** All other steps of a worker leave the token with it. */
  lemma TraceInPlace(s: State, step: Step, id: Uuid, q: Place)
    requires Inv(s) && Enabled(s, step) && id in s.rows && Holds(Apply(s, step), id, q)
    requires ByWorker(step) && !step.Dequeue? && !step.MarkFailed?
    ensures ComesFrom(s, Apply(s, step), id, q, q)
  {
    match step
    case MarkProcessing(w, o) => TraceMarkProcessing(s, w, o, id, q);
    case Ask(w, o) => TraceAsk(s, w, o, id, q);
    case WaitFails(_) => TraceDrops(s, Apply(s, step), id, q);
    case CallSend(w) => TraceCallSend(s, w, id, q);
    case SendReturns(w, reply) => TraceSendReturns(s, w, reply, id, q);
    case PlanRetry(w, jitter) => TracePlanRetry(s, w, jitter, id, q);
    case MarkDelivered(w, o) => TraceMarkDelivered(s, w, o, id, q);
    case CountAttempt(w, o) => TraceCount(s, w, o, id, q);
    case AckEntry(w, o) => TraceAck(s, w, o, id, q);
    case Abandon(_) => TraceDrops(s, Apply(s, step), id, q);
    case _ =>
  }

  /** No step makes a token for a notification that is already in the table: every
      token after the step is one that was there before, at most one move ahead. */
  lemma Trace(s: State, step: Step, id: Uuid, q: Place) returns (p: Place)
    requires Inv(s) && Enabled(s, step) && id in s.rows && Holds(Apply(s, step), id, q)
    ensures ComesFrom(s, Apply(s, step), id, q, p)
  {
    if ByWorker(step) {
      p := TraceWorkers(s, step, id, q);
    } else {
      p := TraceOthers(s, step, id, q);
    }
  }

  // ------------------------------------------------------------- the bound

  /** The step changes where the token of `id` is, or what it looks like. */
  ghost predicate Moves(s: State, step: Step, id: Uuid)
    requires Enabled(s, step)
  {
    exists p :: TokenAt(s, id, p) != TokenAt(Apply(s, step), id, p)
  }

  /** Moves left to a notification. */
  ghost function MovesLeft(s: State, id: Uuid): int
    requires id in s.rows
  {
    if p :| Holds(s, id, p) then RankAt(s, id, p) else 0
  }

  lemma MovesLeftIsRank(s: State, id: Uuid, p: Place)
    requires Inv(s) && id in s.rows && Holds(s, id, p)
    ensures MovesLeft(s, id) == RankAt(s, id, p)
  {
    assert IdOk(s, id);
    assert forall q :: Holds(s, id, q) ==> q == p;
  }

  lemma MovesLeftRange(s: State, id: Uuid)
    requires Inv(s) && id in s.rows
    ensures 0 <= MovesLeft(s, id) <= 10 * s.rows[id].maxAttempts
  {
    assert IdOk(s, id);
    if p :| Holds(s, id, p) {
      RankIsPositive(s, id, p);
      MovesLeftIsRank(s, id, p);
    }
  }

  /** Every move of a token uses up at least one of the moves it has left, and no
      other step gives any back. */
  lemma MoveUsesUp(s: State, step: Step, id: Uuid)
    requires Inv(s) && Enabled(s, step) && id in s.rows
    ensures id in Apply(s, step).rows
    ensures MovesLeft(Apply(s, step), id) + (if Moves(s, step, id) then 1 else 0) <= MovesLeft(s, id)
  {
    var s' := Apply(s, step);
    StepKeepsInvariant(s, step);
    if q :| Holds(s', id, q) {
      var p := Trace(s, step, id, q);
      MovesLeftIsRank(s', id, q);
      MovesLeftIsRank(s, id, p);
      if RankAt(s', id, q) == RankAt(s, id, p) { OnlyOneToken(s, s', id, q); }
    } else {
      MovesLeftRange(s, id);
      if Moves(s, step, id) {
        var p :| TokenAt(s, id, p) != TokenAt(s', id, p);
        assert !Holds(s', id, p);
        assert Holds(s, id, p);
        RankIsPositive(s, id, p);
        MovesLeftIsRank(s, id, p);
      }
    }
  }

  /** An untouched token means that nothing moved. */
  lemma OnlyOneToken(s: State, s': State, id: Uuid, q: Place)
    requires Inv(s) && Inv(s') && id in s.rows && id in s'.rows
    requires Holds(s, id, q) && TokenAt(s', id, q) == TokenAt(s, id, q)
    ensures forall p :: TokenAt(s', id, p) == TokenAt(s, id, p)
  {
    assert IdOk(s, id) && IdOk(s', id);
    forall p ensures TokenAt(s', id, p) == TokenAt(s, id, p) {
      assert Holds(s, id, p) ==> p == q;
      assert Holds(s', id, p) ==> p == q;
    }
  }

  /** Token moves of a notification in a run, from its INSERT on. */
  ghost function CountMoves(s: State, steps: seq<Step>, id: Uuid): nat
    requires ValidRun(s, steps)
    decreases |steps|
  {
    if steps == [] then 0
    else (if id in s.rows && Moves(s, steps[0], id) then 1 else 0)
         + CountMoves(Apply(s, steps[0]), steps[1..], id)
  }

  lemma {:induction false} MovesAreBounded(s: State, steps: seq<Step>, id: Uuid)
    requires Inv(s) && ValidRun(s, steps) && id in After(s, steps).rows
    ensures CountMoves(s, steps, id)
         <= if id in s.rows then MovesLeft(s, id) else 10 * After(s, steps).rows[id].maxAttempts
    decreases |steps|
  {
    if steps == [] {
      MovesLeftRange(s, id);
    } else {
      var s' := Apply(s, steps[0]);
      StepKeepsInvariant(s, steps[0]);
      MovesAreBounded(s', steps[1..], id);
      if id in s.rows {
        MoveUsesUp(s, steps[0], id);
      } else if id in s'.rows {
        MovesLeftRange(s', id);
        RunKeepsInvariant(s', steps[1..]);
      }
    }
  }
}
