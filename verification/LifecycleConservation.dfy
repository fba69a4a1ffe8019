/** When no notification gets lost. Without infrastructure errors a token is lost at
    exactly one kind of step: an API call that marks a notification as queued after
    a worker has already recorded the outcome of its first attempt. */
module LifecycleConservation {
  import opened Wrappers
  import opened Entity
  import opened NotificationTable
  import opened Streams
  import opened Lifecycle
  import opened LifecycleInvariant
  import opened LifecycleSteps
  import opened LifecycleTransfers
  import opened LifecycleTokens
  import opened LifecyclePermanence
  import TokenBucket

  /** Delivered, or failed without a retry left. */
  predicate Finished(row: Notification) {
    row.status == Delivered || (row.status == Failed && row.attempts == row.maxAttempts)
  }

  /** Finished, or cancelled without ever having been in a stream. */
  predicate Final(s: State, id: Uuid)
    requires id in s.rows
  {
    var row := s.rows[id];
    || Finished(row)
    || (row.status == Cancelled && row.scheduledAt.Some? && PastOf(s, id).entries == [])
  }

  ghost predicate HasToken(s: State, id: Uuid) { exists p :: Holds(s, id, p) }

  ghost predicate Conserved(s: State, id: Uuid)
    requires id in s.rows
  {
    HasToken(s, id) || Final(s, id)
  }

  /** The cancel of a scheduled notification that no scheduler has fetched. */
  predicate CancelsInTime(s: State, step: Step, id: Uuid)
    requires id in s.rows
  {
    && step.CancelCall? && step.id == id
    && s.rows[id].status == Pending && s.rows[id].scheduledAt.Some?
  }

  /** After the step there is a token, or the notification has just finished or been
      cancelled in time. */
  ghost predicate GoesOn(s: State, step: Step, id: Uuid)
    requires Enabled(s, step) && id in s.rows && id in Apply(s, step).rows
  {
    HasToken(Apply(s, step), id) || Finished(Apply(s, step).rows[id]) || CancelsInTime(s, step, id)
  }

  /** The late UPDATE of an API call on a row whose first attempt is recorded. */
  predicate LateOverwrite(s: State, step: Step, id: Uuid)
    requires id in s.rows && Enabled(s, step)
  {
    && step.CreatorMark? && step.o.Done? && s.creators[step.pid].late == Some(id)
    && (s.rows[id].status == Delivered || s.rows[id].status == Failed)
  }

  // ---------------------------------------------------- tokens go forward

  /** Steps of API calls and schedulers that leave every token where it is. */
  predicate Passive(step: Step) {
    step.Tick? || step.CreatorStop? || step.SchedStop? || step.AckEntry? || step.Ask? || step.CallSend?
    || step.SendReturns? || step.PlanRetry? || step.MarkProcessing?
  }

  lemma PassiveKeeps(s: State, step: Step, id: Uuid, p: Place)
    requires Enabled(s, step) && Orderly(s, step) && Passive(step)
    requires id in s.rows && Holds(s, id, p)
    requires step.MarkProcessing? && Pc(s, step.w).msg.notification.id == id ==> p == AtWorker(step.w)
    ensures Holds(Apply(s, step), id, p)
  {
    if p == AtRow {
      assert RowToken(Apply(s, step).rows[id]) == RowToken(s.rows[id]);
    }
  }

  lemma PersistForward(s: State, pid: Pid, ns: seq<Notification>, o: Outcome, id: Uuid, p: Place)
    requires Enabled(s, Persist(pid, ns, o)) && id in s.rows && Holds(s, id, p)
    ensures Holds(Apply(s, Persist(pid, ns, o)), id, p)
  {
    if !o.Refused? { InsertAddsExactly(s.rows, ns); }
  }

  lemma CreatorEnqueueForward(s: State, pid: Pid, x: Uuid, id: Uuid, p: Place)
    requires Inv(s) && Enabled(s, CreatorEnqueue(pid, x, Done)) && id in s.rows && Holds(s, id, p)
    ensures HasToken(Apply(s, CreatorEnqueue(pid, x, Done)), id)
  {
    var s' := Apply(s, CreatorEnqueue(pid, x, Done));
    assert CreatorOk(s, s.creators[pid]);
    if p == AtCreator(pid) && id == x {
      assert Holds(s', id, NextPlace(s, s.creators[pid].todo[x]));
    } else {
      assert Holds(s', id, p);
    }
  }

  lemma SchedEnqueueForward(s: State, pid: Pid, id: Uuid, p: Place)
    requires Inv(s) && Enabled(s, SchedEnqueue(pid, Done)) && id in s.rows && Holds(s, id, p)
    ensures HasToken(Apply(s, SchedEnqueue(pid, Done)), id)
  {
    var s' := Apply(s, SchedEnqueue(pid, Done));
    assert SchedOk(s, s.scheds[pid]);
    var x := s.scheds[pid].marked.value;
    if p == AtSched(pid) && id == x {
      assert Holds(s', id, NextPlace(s, s.scheds[pid].todo[x]));
    } else {
      assert Holds(s', id, p);
    }
  }

  lemma FetchForward(s: State, pid: Pid, q: Query, ids: set<Uuid>, at: int, id: Uuid, p: Place)
    requires Enabled(s, Fetch(pid, q, ids, at, Done)) && id in s.rows && Holds(s, id, p)
    ensures HasToken(Apply(s, Fetch(pid, q, ids, at, Done)), id)
  {
    var s' := Apply(s, Fetch(pid, q, ids, at, Done));
    assert Holds(s', id, if id in ids then AtSched(pid) else p);
  }

  lemma SchedMarkForward(s: State, pid: Pid, x: Uuid, id: Uuid, p: Place)
    requires Inv(s) && Enabled(s, SchedMark(pid, x, Done)) && id in s.rows && Holds(s, id, p)
    ensures Holds(Apply(s, SchedMark(pid, x, Done)), id, p)
  {
    assert IdOk(s, id);
    assert id == x ==> Holds(s, id, AtSched(pid));
  }

  lemma DequeueForward(s: State, w: Pid, id: Uuid, p: Place)
    requires AllValid(s.queues) && Enabled(s, Dequeue(w, Done)) && id in s.rows && Holds(s, id, p)
    ensures HasToken(Apply(s, Dequeue(w, Done)), id)
  {
    var s' := Apply(s, Dequeue(w, Done));
    var key := s.workers[w].key;
    assert Holds(s', id, if p == AtStream(key, At(s.queues, key).cursor) then AtWorker(w) else p);
  }

  lemma CancelForward(s: State, x: Uuid, o: Outcome, id: Uuid, p: Place)
    requires Inv(s) && id in s.rows && Holds(s, id, p)
    ensures id in Apply(s, CancelCall(x, o)).rows && GoesOn(s, CancelCall(x, o), id)
  {
    var s' := Apply(s, CancelCall(x, o));
    assert IdOk(s, id);
    if !Holds(s', id, p) {
      assert p == AtRow && TokenAt(s, id, p) == Some(Scheduled);
    }
  }

  lemma CreatorMarkForward(s: State, pid: Pid, id: Uuid, p: Place)
    requires Inv(s) && Enabled(s, CreatorMark(pid, Done)) && id in s.rows && Holds(s, id, p)
    requires !LateOverwrite(s, CreatorMark(pid, Done), id)
    ensures Holds(Apply(s, CreatorMark(pid, Done)), id, p)
  {
    assert CreatorOk(s, s.creators[pid]);
  }

  lemma MarkDeliveredForward(s: State, w: Pid, id: Uuid, p: Place)
    requires Inv(s) && Enabled(s, MarkDelivered(w, Done)) && id in s.rows && Holds(s, id, p)
    ensures id in Apply(s, MarkDelivered(w, Done)).rows && GoesOn(s, MarkDelivered(w, Done), id)
  {
    var s' := Apply(s, MarkDelivered(w, Done));
    if id != Pc(s, w).msg.notification.id { assert Holds(s', id, p); }
  }

  lemma CountAttemptForward(s: State, w: Pid, id: Uuid, p: Place)
    requires Inv(s) && Enabled(s, CountAttempt(w, Done)) && id in s.rows && Holds(s, id, p)
    ensures Holds(Apply(s, CountAttempt(w, Done)), id, p)
  {
    HeldBy(s, w);
    var x := Pc(s, w).msg.notification.id;
    assert forall r :: Holds(s, x, r) ==> r == AtWorker(w);
  }

  lemma MarkFailedForward(s: State, w: Pid, id: Uuid, p: Place)
    requires Inv(s) && Enabled(s, MarkFailed(w, Done)) && id in s.rows && Holds(s, id, p)
    ensures id in Apply(s, MarkFailed(w, Done)).rows && GoesOn(s, MarkFailed(w, Done), id)
  {
    var s' := Apply(s, MarkFailed(w, Done));
    HeldBy(s, w);
    if id == Pc(s, w).msg.notification.id {
      assert Holds(s', id, AtRow) || Finished(s'.rows[id]);
    } else {
      assert Holds(s', id, p);
    }
  }

  lemma MarkProcessingForward(s: State, w: Pid, id: Uuid, p: Place)
    requires Inv(s) && Enabled(s, MarkProcessing(w, Done)) && id in s.rows && Holds(s, id, p)
    ensures Holds(Apply(s, MarkProcessing(w, Done)), id, p)
  {
    HeldBy(s, w);
    var x := Pc(s, w).msg.notification.id;
    assert forall r :: Holds(s, x, r) ==> r == AtWorker(w);
    PassiveKeeps(s, MarkProcessing(w, Done), id, p);
  }

  /** In a step without errors a token is given up only when the notification finishes,
      is cancelled in time, or is overwritten late. */
  lemma TokenGoesForward(s: State, step: Step, id: Uuid)
    requires Inv(s) && Enabled(s, step) && Orderly(s, step) && id in s.rows && HasToken(s, id)
    requires !LateOverwrite(s, step, id)
    ensures id in Apply(s, step).rows && GoesOn(s, step, id)
  {
    var p :| Holds(s, id, p);
    if Passive(step) && !step.MarkProcessing? {
      PassiveKeeps(s, step, id, p);
    } else if ByWorker(step) {
      WorkersForward(s, step, id, p);
    } else {
      ApiForward(s, step, id, p);
    }
  }

  lemma ApiForward(s: State, step: Step, id: Uuid, p: Place)
    requires Inv(s) && Enabled(s, step) && Orderly(s, step) && id in s.rows && Holds(s, id, p)
    requires !LateOverwrite(s, step, id) && !ByWorker(step) && !Passive(step)
    ensures id in Apply(s, step).rows && GoesOn(s, step, id)
  {
    StepKeepsInvariant(s, step);
    match step
    case Persist(pid, ns, o) => PersistForward(s, pid, ns, o, id, p);
    case CreatorEnqueue(pid, x, _) => CreatorEnqueueForward(s, pid, x, id, p);
    case CreatorMark(pid, _) => CreatorMarkForward(s, pid, id, p);
    case CancelCall(x, o) => CancelForward(s, x, o, id, p);
    case Fetch(pid, q, ids, at, _) => FetchForward(s, pid, q, ids, at, id, p);
    case SchedMark(pid, x, _) => SchedMarkForward(s, pid, x, id, p);
    case SchedEnqueue(pid, _) => SchedEnqueueForward(s, pid, id, p);
  }

  lemma WorkersForward(s: State, step: Step, id: Uuid, p: Place)
    requires Inv(s) && Enabled(s, step) && Orderly(s, step) && id in s.rows && Holds(s, id, p)
    requires ByWorker(step) && (step.MarkProcessing? || !Passive(step))
    ensures id in Apply(s, step).rows && GoesOn(s, step, id)
  {
    StepKeepsInvariant(s, step);
    match step
    case Dequeue(w, _) => DequeueForward(s, w, id, p);
    case MarkProcessing(w, _) => MarkProcessingForward(s, w, id, p);
    case MarkDelivered(w, _) => MarkDeliveredForward(s, w, id, p);
    case CountAttempt(w, _) => CountAttemptForward(s, w, id, p);
    case MarkFailed(w, _) => MarkFailedForward(s, w, id, p);
  }

  // --------------------------------------------------- final rows stay final

  /** Workers write only the row whose token they hold. */
  lemma WorkersNeedToken(s: State, step: Step, id: Uuid)
    requires Enabled(s, step) && ByWorker(step) && !HasToken(s, id)
    ensures Target(s, step) != Some(id)
  {
    if Target(s, step) == Some(id) { assert Holds(s, id, AtWorker(step.w)); }
  }

  /** Only the holder of a token adds an entry. */
  lemma EntriesNeedToken(s: State, step: Step, id: Uuid)
    requires Inv(s) && Enabled(s, step) && id in s.rows && !HasToken(s, id)
    ensures EntryAttempts(At(Apply(s, step).queues, KeyOf(s.rows[id])).entries, id) == PastOf(s, id).entries
  {
    if ByWorker(step) {
      WorkersEnterNothing(s, step, KeyOf(s.rows[id]));
    } else if step.CreatorEnqueue? {
      CreatorEntry(s, step, id);
    } else if step.SchedEnqueue? {
      SchedEntry(s, step, id);
    } else {
      OthersLeaveStreams(s, step);
    }
  }

  lemma WorkersEnterNothing(s: State, step: Step, key: StreamKey)
    requires Enabled(s, step) && ByWorker(step)
    ensures At(Apply(s, step).queues, key).entries == At(s.queues, key).entries
  {
    if key in s.queues { WorkersOnStreams(s, step, key); }
  }

  lemma OthersLeaveStreams(s: State, step: Step)
    requires Enabled(s, step) && !ByWorker(step) && !step.CreatorEnqueue? && !step.SchedEnqueue?
    ensures Apply(s, step).queues == s.queues
  {
  }

  lemma CreatorEntry(s: State, step: Step, id: Uuid)
    requires ProcessesOk(s) && Enabled(s, step) && step.CreatorEnqueue? && id in s.rows && !HasToken(s, id)
    ensures EntryAttempts(At(Apply(s, step).queues, KeyOf(s.rows[id])).entries, id) == PastOf(s, id).entries
  {
    assert CreatorOk(s, s.creators[step.pid]) && !Holds(s, id, AtCreator(step.pid));
    OtherEntry(At(s.queues, KeyOf(s.rows[id])).entries, s.creators[step.pid].todo[step.id], id);
  }

  lemma SchedEntry(s: State, step: Step, id: Uuid)
    requires ProcessesOk(s) && Enabled(s, step) && step.SchedEnqueue? && id in s.rows && !HasToken(s, id)
    ensures EntryAttempts(At(Apply(s, step).queues, KeyOf(s.rows[id])).entries, id) == PastOf(s, id).entries
  {
    assert SchedOk(s, s.scheds[step.pid]) && !Holds(s, id, AtSched(step.pid));
    var x := s.scheds[step.pid].marked.value;
    OtherEntry(At(s.queues, KeyOf(s.rows[id])).entries, s.scheds[step.pid].todo[x], id);
  }

  lemma OtherEntry(entries: seq<Notification>, n: Notification, id: Uuid)
    requires n.id != id
    ensures EntryAttempts(entries + [n], id) == EntryAttempts(entries, id)
  {
    assert (entries + [n])[..|entries|] == entries;
  }

  lemma FinalStaysFinal(s: State, step: Step, id: Uuid)
    requires Inv(s) && Enabled(s, step) && id in s.rows && !HasToken(s, id) && Final(s, id)
    requires !LateOverwrite(s, step, id) && Orderly(s, step)
    ensures id in Apply(s, step).rows && Final(Apply(s, step), id)
  {
    StepKeepsInvariant(s, step);
    EntriesNeedToken(s, step, id);
    if ByWorker(step) {
      WorkersNeedToken(s, step, id);
      RowsFrame(s, step, id);
    } else {
      ApiKeepsFinal(s, step, id);
    }
  }

  /** The row of a final notification without a token is left alone. */
  lemma ApiKeepsFinal(s: State, step: Step, id: Uuid)
    requires Inv(s) && Enabled(s, step) && id in s.rows && !HasToken(s, id) && Final(s, id)
    requires !LateOverwrite(s, step, id) && Orderly(s, step) && !ByWorker(step)
    ensures id in Apply(s, step).rows && Apply(s, step).rows[id] == s.rows[id]
  {
    match step
    case CreatorMark(pid, _) => assert CreatorOk(s, s.creators[pid]);
    case SchedMark(pid, _, _) => assert !Holds(s, id, AtSched(pid));
    case Fetch(_, _, _, _, _) => assert !Holds(s, id, AtRow);
    case CancelCall(_, _) =>
    case _ => RowsFrame(s, step, id);
  }

  lemma LateOverwriteLoses(s: State, step: Step, id: Uuid)
    requires Inv(s) && Enabled(s, step) && Orderly(s, step) && id in s.rows && Conserved(s, id)
    requires LateOverwrite(s, step, id)
    ensures id in Apply(s, step).rows && !Conserved(Apply(s, step), id)
  {
    var s' := Apply(s, step);
    assert IdOk(s, id);
    assert forall p :: Holds(s, id, p) ==> p == AtRow;
    assert s'.rows[id].status == Queued;
    forall p ensures !Holds(s', id, p) {
      if Holds(s', id, p) { TraceCreatorMark(s, step.pid, step.o, id, p); }
    }
  }

  lemma CancelInTimeIsFinal(s: State, step: Step, id: Uuid)
    requires Inv(s) && Enabled(s, step) && id in s.rows && CancelsInTime(s, step, id)
    ensures id in Apply(s, step).rows && Conserved(Apply(s, step), id)
  {
    assert IdOk(s, id) && Holds(s, id, AtRow);
    if step.o.Refused? { assert Apply(s, step) == s; }
  }

  /** In a step without errors a notification is lost exactly when the step is a late
      UPDATE over a recorded outcome. */
  lemma LostExactlyByLateOverwrite(s: State, step: Step, id: Uuid)
    requires Inv(s) && Enabled(s, step) && Orderly(s, step) && id in s.rows && Conserved(s, id)
    ensures id in Apply(s, step).rows
    ensures Conserved(Apply(s, step), id) <==> !LateOverwrite(s, step, id)
    ensures HasToken(s, id) && !LateOverwrite(s, step, id) ==> GoesOn(s, step, id)
  {
    StepKeepsInvariant(s, step);
    if LateOverwrite(s, step, id) {
      LateOverwriteLoses(s, step, id);
    } else if HasToken(s, id) {
      TokenGoesForward(s, step, id);
      if CancelsInTime(s, step, id) { CancelInTimeIsFinal(s, step, id); }
    } else {
      FinalStaysFinal(s, step, id);
    }
  }

  // ------------------------------------------------- runs that lose nothing

  /** The status write of an API call precedes the first read of its entry. */
  ghost predicate Prompt(s: State, step: Step)
    requires Enabled(s, step)
  {
    step.Dequeue? ==>
      var stream := At(s.queues, s.workers[step.w].key);
      forall pid :: !LateOn(s, pid, stream.entries[stream.cursor].id)
  }

  ghost predicate OrderlyRun(s: State, steps: seq<Step>)
    requires ValidRun(s, steps)
    decreases |steps|
  {
    steps == [] || (&& Orderly(s, steps[0]) && Prompt(s, steps[0])
                    && OrderlyRun(Apply(s, steps[0]), steps[1..]))
  }

  /** While its call is late, a notification is still unread. */
  ghost predicate UnreadSomewhere(s: State, id: Uuid) {
    exists key, i :: Holds(s, id, AtStream(key, i))
  }

  ghost predicate LateIsUnread(s: State) {
    forall pid, id :: LateOn(s, pid, id) ==> UnreadSomewhere(s, id)
  }

  lemma LateIsUnreadKept(s: State, step: Step)
    requires Inv(s) && Enabled(s, step) && Prompt(s, step) && LateIsUnread(s)
    ensures LateIsUnread(Apply(s, step))
  {
    var s' := Apply(s, step);
    forall pid, id | LateOn(s', pid, id) ensures UnreadSomewhere(s', id) {
      LateComesFromToken(s, step, pid, id);
      if LateOn(s, pid, id) {
        assert UnreadSomewhere(s, id);
        var key, i :| Holds(s, id, AtStream(key, i));
        StaysUnread(s, step, id, key, i);
      } else {
        LateStartsUnread(s, step, pid, id);
      }
    }
  }

  lemma LateStartsUnread(s: State, step: Step, pid: Pid, id: Uuid)
    requires Inv(s) && Enabled(s, step) && !LateOn(s, pid, id) && LateOn(Apply(s, step), pid, id)
    ensures UnreadSomewhere(Apply(s, step), id)
  {
    if !ByCreator(step) { OthersLeaveCreators(s, step); }
    assert step == CreatorEnqueue(pid, id, Done);
    assert CreatorOk(s, s.creators[pid]);
    var n := s.creators[pid].todo[id];
    assert Holds(Apply(s, step), id, AtStream(KeyOf(n), NextPlace(s, n).index));
  }

  /** A prompt call never overwrites a recorded outcome. */
  lemma PromptNeverOverwrites(s: State, step: Step, id: Uuid)
    requires Inv(s) && Enabled(s, step) && LateIsUnread(s) && id in s.rows
    ensures !LateOverwrite(s, step, id)
  {
    assert IdOk(s, id);
    if step.CreatorMark? && s.creators[step.pid].late == Some(id) {
      assert LateOn(s, step.pid, id);
      assert UnreadSomewhere(s, id);
      var key, i :| Holds(s, id, AtStream(key, i));
    }
  }

  ghost predicate AllConserved(s: State) {
    forall id :: id in s.rows ==> Conserved(s, id)
  }

  lemma OrderlyStepConserves(s: State, step: Step)
    requires Inv(s) && LateIsUnread(s) && AllConserved(s)
    requires Enabled(s, step) && Orderly(s, step)
    ensures AllConserved(Apply(s, step))
  {
    var s' := Apply(s, step);
    forall id | id in s'.rows ensures Conserved(s', id) {
      if id in s.rows {
        PromptNeverOverwrites(s, step, id);
        LostExactlyByLateOverwrite(s, step, id);
      } else {
        NewRowHasToken(s, step, id);
      }
    }
  }

  lemma WorkersKeepRows(s: State, step: Step)
    requires Enabled(s, step) && ByWorker(step)
    ensures Apply(s, step).rows.Keys == s.rows.Keys
  {
    if !UpdatesRow(step) { MovesLeaveRows(s, step); }
  }

  lemma OnlyPersistAdds(s: State, step: Step, id: Uuid)
    requires Enabled(s, step) && Orderly(s, step) && id !in s.rows && id in Apply(s, step).rows
    ensures step.Persist? && step.o.Done?
  {
    if ByWorker(step) { WorkersKeepRows(s, step); }
  }

  lemma NewRowHasToken(s: State, step: Step, id: Uuid)
    requires Inv(s) && Enabled(s, step) && Orderly(s, step)
    requires id !in s.rows && id in Apply(s, step).rows
    ensures HasToken(Apply(s, step), id)
  {
    OnlyPersistAdds(s, step, id);
    PersistMakesToken(s, step.pid, step.ns, id);
  }

  lemma PersistLeaves(s: State, pid: Pid, ns: seq<Notification>)
    requires Enabled(s, Persist(pid, ns, Done))
    ensures var t := Apply(s, Persist(pid, ns, Done));
      && t.rows == Insert(s.rows, ns).value
      && pid in t.creators && t.creators[pid] == Creator(Unscheduled(t.rows, ns), None)
  {
  }

  lemma PersistMakesToken(s: State, pid: Pid, ns: seq<Notification>, id: Uuid)
    requires Enabled(s, Persist(pid, ns, Done)) && id !in s.rows && id in Apply(s, Persist(pid, ns, Done)).rows
    ensures HasToken(Apply(s, Persist(pid, ns, Done)), id)
  {
    InsertAddsExactly(s.rows, ns);
    PersistLeaves(s, pid, ns);
    StoredHasToken(Apply(s, Persist(pid, ns, Done)), pid, ns, id);
  }

  lemma StoredHasToken(t: State, pid: Pid, ns: seq<Notification>, id: Uuid)
    requires id in t.rows && id in Ids(ns) && t.rows[id].status == Pending
    requires pid in t.creators && t.creators[pid] == Creator(Unscheduled(t.rows, ns), None)
    ensures HasToken(t, id)
  {
    assert Holds(t, id, if t.rows[id].scheduledAt.Some? then AtRow else AtCreator(pid));
  }

  lemma {:induction false} OrderlyRunConserves(s: State, steps: seq<Step>)
    requires Inv(s) && LateIsUnread(s) && AllConserved(s)
    requires ValidRun(s, steps) && OrderlyRun(s, steps)
    ensures AllConserved(After(s, steps)) && Inv(After(s, steps))
    decreases |steps|
  {
    if steps != [] {
      StepKeepsInvariant(s, steps[0]);
      LateIsUnreadKept(s, steps[0]);
      OrderlyStepConserves(s, steps[0]);
      OrderlyRunConserves(Apply(s, steps[0]), steps[1..]);
    }
  }

  /** Without infrastructure errors, and when every API call marks its notification
      as queued before the entry is read, every notification has exactly one token, or
      it has none and is final. */
  lemma NothingIsLost(s0: State, steps: seq<Step>, id: Uuid)
    requires Init(s0) && ValidRun(s0, steps) && OrderlyRun(s0, steps)
    requires id in After(s0, steps).rows
    ensures var s := After(s0, steps);
      || (exists p :: Holds(s, id, p) && forall q :: Holds(s, id, q) ==> q == p)
      || (NoToken(s, id) && Final(s, id))
  {
    var s := After(s0, steps);
    InitEstablishes(s0);
    OrderlyRunConserves(s0, steps);
    assert Conserved(s, id) && IdOk(s, id);
    if p :| Holds(s, id, p) {
      assert forall q :: Holds(s, id, q) ==> q == p;
    }
  }

  /** No step of the run is a late UPDATE over a recorded outcome. */
  ghost predicate NeverOverwrites(s: State, steps: seq<Step>)
    requires ValidRun(s, steps)
    decreases |steps|
  {
    steps == [] || (&& (forall id :: id in s.rows ==> !LateOverwrite(s, steps[0], id))
                    && NeverOverwrites(Apply(s, steps[0]), steps[1..]))
  }

  /** At every moment of the run every notification has a token or is final. */
  ghost predicate AlwaysConserved(s: State, steps: seq<Step>)
    requires ValidRun(s, steps)
    decreases |steps|
  {
    AllConserved(s) && (steps == [] || AlwaysConserved(Apply(s, steps[0]), steps[1..]))
  }

  lemma AllConservedIff(s: State, step: Step)
    requires Inv(s) && AllConserved(s) && Enabled(s, step) && Orderly(s, step)
    ensures AllConserved(Apply(s, step)) <==> forall id :: id in s.rows ==> !LateOverwrite(s, step, id)
  {
    var s' := Apply(s, step);
    forall id | id in s.rows
      ensures id in s'.rows && (Conserved(s', id) <==> !LateOverwrite(s, step, id))
    {
      LostExactlyByLateOverwrite(s, step, id);
    }
    forall id | id in s'.rows && id !in s.rows ensures Conserved(s', id) { NewRowHasToken(s, step, id); }
  }

  lemma {:induction false} AlwaysConservedIff(s: State, steps: seq<Step>)
    requires Inv(s) && AllConserved(s) && ErrorFree(s, steps) && ValidRun(s, steps)
    ensures AlwaysConserved(s, steps) <==> NeverOverwrites(s, steps)
    decreases |steps|
  {
    if steps != [] {
      var s' := Apply(s, steps[0]);
      AllConservedIff(s, steps[0]);
      StepKeepsInvariant(s, steps[0]);
      if AllConserved(s') { AlwaysConservedIff(s', steps[1..]); }
    }
  }

  /** A run without infrastructure errors loses nothing at any moment if and only if no
      API call overwrites the recorded outcome of a first attempt. */
  lemma NothingIsLostIff(s0: State, steps: seq<Step>)
    requires Init(s0) && ErrorFree(s0, steps)
    ensures ValidRun(s0, steps)
    ensures AlwaysConserved(s0, steps) <==> NeverOverwrites(s0, steps)
  {
    InitEstablishes(s0);
    ErrorFreeIsValid(s0, steps);
    AlwaysConservedIff(s0, steps);
  }

  // ---------------------------------------------- the race that loses a retry

  const RACE_CONFIG := Config(TokenBucket.Limits(100, 100), 1_000_000_000, 300_000_000_000)
  const RACE_STREAM := StreamKey(Sms, Normal)

  function RaceNotification(): Notification {
    NewNotification(1, Sms, Normal, Message("5550100", false, None, "text", None), "key-1", 0)
  }

  const RACE_MESSAGE := QueueMessage(0, RaceNotification())

  /** One worker, nothing stored. */
  function RaceStart(): State {
    State(RACE_CONFIG, 0, map[], map[], map[], map[0 := Worker(RACE_STREAM, Idle)], map[], map[], Start)
  }

  /** `t` is reached from the start of the race without errors. */
  ghost predicate InRace(t: State) {
    exists steps :: ErrorFree(RaceStart(), steps) && ValidRun(RaceStart(), steps) && After(RaceStart(), steps) == t
  }

  lemma {:induction false} ErrorFreeAppend(s: State, steps: seq<Step>, step: Step)
    requires ErrorFree(s, steps) && ValidRun(s, steps)
    requires Enabled(After(s, steps), step) && Orderly(After(s, steps), step)
    ensures ErrorFree(s, steps + [step]) && ValidRun(s, steps + [step])
    ensures After(s, steps + [step]) == Apply(After(s, steps), step)
    decreases |steps|
  {
    var all := steps + [step];
    if steps == [] {
      assert all[1..] == [];
    } else {
      assert all[1..] == steps[1..] + [step];
      ErrorFreeAppend(Apply(s, steps[0]), steps[1..], step);
    }
  }

  lemma RaceGoesOn(t: State, step: Step)
    requires InRace(t) && Enabled(t, step) && Orderly(t, step)
    ensures InRace(Apply(t, step))
  {
    var steps :| ErrorFree(RaceStart(), steps) && ValidRun(RaceStart(), steps) && After(RaceStart(), steps) == t;
    ErrorFreeAppend(RaceStart(), steps, step);
    assert ErrorFree(RaceStart(), steps + [step]);
  }

  /** The entry has been read while the API call is still about to write `queued`. */
  ghost predicate Racing(t: State, pc: WorkerPc) {
    && InRace(t) && t.cfg == RACE_CONFIG
    && t.workers == map[0 := Worker(RACE_STREAM, pc)]
    && t.creators == map[7 := Creator(map[], Some(1))]
    && 1 in t.rows && t.rows[1].maxAttempts == 5
  }

  /** Creator 7 has stored the notification and has yet to enqueue it. */
  function RaceStored(): State {
    RaceStart().(rows := map[1 := RaceNotification()],
                 creators := map[7 := Creator(map[1 := RaceNotification()], None)])
  }

  lemma RaceStores()
    ensures InRace(RaceStored())
  {
    var n := RaceNotification();
    var s0 := RaceStart();
    assert ErrorFree(s0, []) && ValidRun(s0, []) && After(s0, []) == s0;
    var persist := Persist(7, [n], Done);
    assert Insert(s0.rows, [n]) == Success(map[1 := n]) by {
      assert [n][1..] == [];
      assert Insert(map[1 := n], []) == Success(map[1 := n]);
    }
    RaceGoesOn(s0, persist);
    assert Unscheduled(map[1 := n], [n]) == map[1 := n] by { assert [n][0].id in Ids([n]); }
    assert Apply(s0, persist) == RaceStored();
  }

  /** The entry is in its stream, the late write is still to come. */
  function RaceEnqueued(): State {
    RaceStart().(rows := map[1 := RaceNotification()],
                 queues := map[RACE_STREAM := Stream([RaceNotification()], 0, {})],
                 creators := map[7 := Creator(map[], Some(1))])
  }

  lemma RaceAppends()
    ensures var s, step := RaceStored(), CreatorEnqueue(7, 1, Done);
      Enabled(s, step) && Orderly(s, step) && Apply(s, step) == RaceEnqueued()
  {
    assert [] + [RaceNotification()] == [RaceNotification()];
    assert Without(map[1 := RaceNotification()], 1) == map[];
  }

  lemma RaceEnqueues()
    ensures InRace(RaceEnqueued())
  {
    RaceStores();
    RaceAppends();
    RaceGoesOn(RaceStored(), CreatorEnqueue(7, 1, Done));
  }

  lemma RaceRead()
    ensures var s, step := RaceEnqueued(), Dequeue(0, Done);
      && Enabled(s, step) && Orderly(s, step)
      && Apply(s, step).workers == map[0 := Worker(RACE_STREAM, Got(RACE_MESSAGE))]
  {
  }

  lemma RaceReads() returns (t: State)
    ensures Racing(t, Got(RACE_MESSAGE)) && t.buckets == map[]
  {
    RaceEnqueues();
    RaceRead();
    RaceGoesOn(RaceEnqueued(), Dequeue(0, Done));
    t := Apply(RaceEnqueued(), Dequeue(0, Done));
  }

  lemma RaceMoves(s: State, step: Step, pc: WorkerPc) returns (t: State)
    requires Racing(s, pc) && ByWorker(step) && step.w == 0 && Enabled(s, step) && Orderly(s, step)
    requires EffectOfWorker(s, step).rows.Keys == s.rows.Keys && EffectOfWorker(s, step).rows[1].maxAttempts == 5
    ensures t == Apply(s, step) && Racing(t, EffectOfWorker(s, step).pc)
  {
    RaceGoesOn(s, step);
    t := Apply(s, step);
  }

  lemma RaceSends(s: State) returns (t: State)
    requires Racing(s, Got(RACE_MESSAGE)) && s.buckets == map[]
    ensures Racing(t, Sending(RACE_MESSAGE))
  {
    t := RaceMoves(s, MarkProcessing(0, Done), Got(RACE_MESSAGE));
    t := RaceMoves(t, Ask(0, Done), Waiting(RACE_MESSAGE));
    t := RaceMoves(t, CallSend(0), Granted(RACE_MESSAGE));
  }

  lemma RaceIsRejected(s: State) returns (t: State, next: Option<int>)
    requires Racing(s, Sending(RACE_MESSAGE))
    ensures Racing(t, Planned(RACE_MESSAGE, "down", next))
  {
    t := RaceMoves(s, SendReturns(0, Failure("down")), Sending(RACE_MESSAGE));
    next := RetryTime(t, RaceNotification(), 0.0);
    t := RaceMoves(t, PlanRetry(0, 0.0), Rejected(RACE_MESSAGE, "down"));
  }

  lemma RaceFails(s: State, next: Option<int>) returns (t: State)
    requires Racing(s, Planned(RACE_MESSAGE, "down", next))
    ensures Racing(t, Acking(RACE_MESSAGE)) && t.rows[1].status == Failed
  {
    t := RaceMoves(s, CountAttempt(0, Done), Planned(RACE_MESSAGE, "down", next));
    t := RaceMoves(t, MarkFailed(0, Done), Counted(RACE_MESSAGE, "down"));
  }

  /** The proviso is needed: without any infrastructure error, an API call that is
      slower than the first attempt takes away the retry. The row is left as
      `queued`, one attempt used out of five, and is never sent again. */
  lemma LateMarkLosesRetry() returns (s: State)
    ensures InRace(s) && 1 in s.rows && s.rows[1].status == Queued && s.rows[1].maxAttempts == 5
    ensures !Conserved(s, 1)
    ensures forall steps :: ValidRun(s, steps) ==> SendTimes(After(s, steps).log, 1) == SendTimes(s.log, 1)
  {
    s := RaceReads();
    s := RaceSends(s);
    var t, next := RaceIsRejected(s);
    t := RaceFails(t, next);
    s := RaceOverwrites(t);
    RaceIsSilent(s);
  }

  lemma RaceInvariant(t: State)
    requires InRace(t)
    ensures Inv(t)
  {
    var steps :| ErrorFree(RaceStart(), steps) && ValidRun(RaceStart(), steps) && After(RaceStart(), steps) == t;
    InitEstablishes(RaceStart());
    RunKeepsInvariant(RaceStart(), steps);
  }

  lemma RaceOverwrites(t: State) returns (s: State)
    requires Racing(t, Acking(RACE_MESSAGE)) && t.rows[1].status == Failed
    ensures InRace(s) && 1 in s.rows && s.rows[1].status == Queued && s.rows[1].maxAttempts == 5
    ensures !Conserved(s, 1) && forall pid :: !LateOn(s, pid, 1)
  {
    RaceGoesOn(t, CreatorMark(7, Done));
    s := Apply(t, CreatorMark(7, Done));
    RaceInvariant(t);
    RaceConserved(t);
    LostExactlyByLateOverwrite(t, CreatorMark(7, Done), 1);
  }

  lemma RaceIsSilent(s: State)
    requires InRace(s) && 1 in s.rows && !HasToken(s, 1) && forall pid :: !LateOn(s, pid, 1)
    ensures forall steps :: ValidRun(s, steps) ==> SendTimes(After(s, steps).log, 1) == SendTimes(s.log, 1)
  {
    RaceInvariant(s);
    forall more | ValidRun(s, more) ensures SendTimes(After(s, more).log, 1) == SendTimes(s.log, 1) {
      SilentWithoutWriter(s, more, 1);
    }
  }

  lemma RaceConserved(t: State)
    requires Inv(t) && 1 in t.rows && t.rows[1].status == Failed
    ensures Conserved(t, 1)
  {
    assert IdOk(t, 1);
    assert Holds(t, 1, AtRow) || Final(t, 1);
  }
}
