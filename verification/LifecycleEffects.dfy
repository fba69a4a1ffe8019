/** What each step writes, in the columns and streams of the source's statements and
    commands. */
module LifecycleEffects {
  import opened Wrappers
  import opened Entity
  import opened NotificationTable
  import opened Streams
  import opened Lifecycle
  import opened LifecycleInvariant
  import opened LifecycleSafety
  import Backoff
  import TokenBucket

  /** An `UpdateStatus` call: nothing if it is refused, and otherwise this row. */
  ghost predicate Updates(s: State, s': State, o: Outcome, id: Uuid, status: Status,
                          providerId: Option<string>, error: Option<string>) {
    && s'.queues == s.queues && s'.buckets == s.buckets && s'.log == s.log && s'.now == s.now
    && if o.Refused? then s'.rows == s.rows
       else id in s.rows ==> RowWritten(s.rows, s'.rows, id, status, providerId, error)
  }

  /** An XADD: nothing if it is refused, and otherwise one entry at the end of the stream
      of the notification's channel and priority. */
  ghost predicate Publishes(s: State, s': State, o: Outcome, n: Notification) {
    && s'.rows == s.rows && s'.buckets == s.buckets && s'.log == s.log && s'.now == s.now
    && if o.Refused? then s'.queues == s.queues
       else Added(s.queues, s'.queues, StreamKey(n.channel, n.priority), n)
  }

  // --------------------------------------------------------------- workers

  /** Step a of `Process`. */
  lemma MarkProcessingWrites(s: State, w: Pid, o: Outcome)
    requires Enabled(s, MarkProcessing(w, o))
    ensures var s', msg := Apply(s, MarkProcessing(w, o)), Pc(s, w).msg;
      && Updates(s, s', o, msg.notification.id, Processing, None, None)
      && w in s'.workers && Pc(s', w) == if o.Done? then Waiting(msg) else Idle
  {
    SetStatusWrites(s.rows, Pc(s, w).msg.notification.id, Processing, None, None);
  }

  /** While the row says `processing`, a cancel finds nothing to cancel. */
  lemma ProcessingIsNotCancelled(s: State, w: Pid, o: Outcome)
    requires Enabled(s, MarkProcessing(w, Done))
    ensures var s', id := Apply(s, MarkProcessing(w, Done)), Pc(s, w).msg.notification.id;
      && id in s'.rows && s'.rows[id].status == Processing
      && !Cancellable(s'.rows, id) && Apply(s', CancelCall(id, o)).rows == s'.rows
  {
    MarkProcessingWrites(s, w, Done);
    CancelCallWrites(Apply(s, MarkProcessing(w, Done)), Pc(s, w).msg.notification.id, o);
  }

  /** Step b: the script on the bucket of the message's channel, at the clock in whole
      milliseconds. */
  lemma AskTakes(s: State, w: Pid, o: Outcome)
    requires Enabled(s, Ask(w, o))
    ensures var s', ch, ms := Apply(s, Ask(w, o)), Pc(s, w).msg.notification.channel, s.now / 1_000_000;
      var (bucket, reply) :=
        TokenBucket.Take(s.cfg.limits, if ch in s.buckets then s.buckets[ch] else TokenBucket.Missing, ms);
      && s'.rows == s.rows && s'.queues == s.queues
      && (if o.Refused? then s'.buckets == s.buckets && s'.log == s.log
          else s'.buckets == s.buckets[ch := bucket] && s'.log == Then(s.log, Asked(w, ch, ms, reply.allowed)))
      && w in s'.workers
      && Pc(s', w) == if !o.Done? then Idle else if reply.allowed then Granted(Pc(s, w).msg) else Pc(s, w)
  {
  }

  /** Step c: the call and its reply. */
  lemma CallSendCalls(s: State, w: Pid)
    requires Enabled(s, CallSend(w))
    ensures var s', msg := Apply(s, CallSend(w)), Pc(s, w).msg;
      && s'.rows == s.rows && s'.queues == s.queues && s'.buckets == s.buckets
      && s'.log == Then(s.log, SendCalled(w, msg.notification.id, msg.notification.channel, s.now))
      && w in s'.workers && Pc(s', w) == Sending(msg)
  {
  }

  lemma SendReturnsReply(s: State, w: Pid, reply: Result<string, string>)
    requires Enabled(s, SendReturns(w, reply))
    ensures var s', msg := Apply(s, SendReturns(w, reply)), Pc(s, w).msg;
      && s'.rows == s.rows && s'.queues == s.queues && s'.buckets == s.buckets
      && s'.log == Then(s.log, SendReturned(w, msg.notification.id, reply))
      && w in s'.workers
      && Pc(s', w) == match reply
                      case Success(providerId) => Accepted(msg, providerId)
                      case Failure(error) => Rejected(msg, error)
  {
  }

  /** Step d: the provider's message id goes into the row. */
  lemma MarkDeliveredWrites(s: State, w: Pid, o: Outcome)
    requires Enabled(s, MarkDelivered(w, o))
    ensures var s', pc := Apply(s, MarkDelivered(w, o)), Pc(s, w);
      && Updates(s, s', o, pc.msg.notification.id, Delivered, Some(pc.providerId), None)
      && w in s'.workers && Pc(s', w) == if o.Done? then Acking(pc.msg) else Idle
  {
    SetStatusWrites(s.rows, Pc(s, w).msg.notification.id, Delivered, Some(Pc(s, w).providerId), None);
  }

  /** What step e plans: a retry, at the backoff of the next attempt, exactly if attempts
      are left. */
  ghost predicate Plans(c: Config, n: Notification, at: int, jitter: real, next: Option<int>) {
    && (next.Some? <==> n.attempts + 1 < n.maxAttempts)
    && (next.Some? ==> next.value == at + Backoff.Delay(n.attempts + 1, c.baseDelay, c.maxDelay, jitter))
  }

  lemma PlanRetryPlans(s: State, w: Pid, jitter: real)
    requires Enabled(s, PlanRetry(w, jitter))
    ensures var s', pc := Apply(s, PlanRetry(w, jitter)), Pc(s, w);
      && s'.rows == s.rows && s'.queues == s.queues && s'.buckets == s.buckets && s'.log == s.log
      && w in s'.workers && Pc(s', w).Planned? && Pc(s', w).msg == pc.msg && Pc(s', w).error == pc.error
      && Plans(s.cfg, pc.msg.notification, s.now, jitter, Pc(s', w).next)
  {
  }

  /** A planned retry is not before the base delay and not after the cap with its
      jitter. */
  lemma PlanIsBounded(c: Config, n: Notification, at: int, jitter: real, next: Option<int>)
    requires c.baseDelay >= 0 && Backoff.IsJitter(jitter) && Plans(c, n, at, jitter, next) && next.Some?
    ensures at + c.baseDelay <= next.value
    ensures next.value - at <= c.baseDelay || (next.value - at) as real <= 1.2 * c.maxDelay as real
  {
    Backoff.DelayRange(n.attempts + 1, c.baseDelay, c.maxDelay, jitter);
  }

  lemma CountAttemptWrites(s: State, w: Pid, o: Outcome)
    requires Enabled(s, CountAttempt(w, o))
    ensures var s', pc := Apply(s, CountAttempt(w, o)), Pc(s, w);
      && s'.queues == s.queues && s'.buckets == s.buckets && s'.log == s.log
      && (if o.Refused? then s'.rows == s.rows
          else pc.msg.notification.id in s.rows ==>
            AttemptWritten(s.rows, s'.rows, pc.msg.notification.id, pc.next, s.now))
      && w in s'.workers && Pc(s', w) == if o.Done? then Counted(pc.msg, pc.error) else Idle
  {
    IncrementWrites(s.rows, Pc(s, w).msg.notification.id, Pc(s, w).next, s.now);
  }

  /** The provider's error goes into the row. */
  lemma MarkFailedWrites(s: State, w: Pid, o: Outcome)
    requires Enabled(s, MarkFailed(w, o))
    ensures var s', pc := Apply(s, MarkFailed(w, o)), Pc(s, w);
      && Updates(s, s', o, pc.msg.notification.id, Failed, None, Some(pc.error))
      && w in s'.workers && Pc(s', w) == if o.Done? then Acking(pc.msg) else Idle
  {
    SetStatusWrites(s.rows, Pc(s, w).msg.notification.id, Failed, None, Some(Pc(s, w).error));
  }

  /** XREADGROUP: the next entry of the worker's stream. */
  lemma DequeueReads(s: State, w: Pid, o: Outcome)
    requires Enabled(s, Dequeue(w, o))
    ensures var s', key := Apply(s, Dequeue(w, o)), s.workers[w].key;
      && s'.rows == s.rows && s'.buckets == s.buckets && s'.log == s.log
      && key in s.queues && s.queues[key].cursor < |s.queues[key].entries|
      && (if o.Refused? then s'.queues == s.queues else ReadNext(s.queues, s'.queues, key))
      && w in s'.workers
      && Pc(s', w) == if !o.Done? then Idle
                      else Got(QueueMessage(s.queues[key].cursor, s.queues[key].entries[s.queues[key].cursor]))
  {
    ReadOneReads(s.queues, s.workers[w].key);
  }

  /** XACK of the message's own entry. */
  lemma AckSettles(s: State, w: Pid, o: Outcome)
    requires Enabled(s, AckEntry(w, o))
    ensures var s', msg := Apply(s, AckEntry(w, o)), Pc(s, w).msg;
      && s'.rows == s.rows && s'.buckets == s.buckets && s'.log == s.log
      && (if o.Refused? then s'.queues == s.queues
          else Settled(s.queues, s'.queues, StreamKey(msg.notification.channel, msg.notification.priority),
                       msg.streamMsgId))
      && w in s'.workers && Pc(s', w) == Idle
  {
    AcknowledgeSettles(s.queues, KeyOf(Pc(s, w).msg.notification), Pc(s, w).msg.streamMsgId);
  }

  // ------------------------------------------------- API calls, schedulers

  /** The INSERT: all rows, and the unscheduled ones are still to be enqueued. */
  lemma PersistWrites(s: State, pid: Pid, ns: seq<Notification>, o: Outcome)
    requires Enabled(s, Persist(pid, ns, o))
    ensures var s' := Apply(s, Persist(pid, ns, o));
      && s'.queues == s.queues && s'.buckets == s.buckets && s'.log == s.log
      && (if o.Refused? then s'.rows == s.rows
          else
            && (forall id :: id in s'.rows <==> id in s.rows || exists i :: 0 <= i < |ns| && ns[i].id == id)
            && (forall id :: id in s.rows ==> s'.rows[id] == s.rows[id])
            && (forall i :: 0 <= i < |ns| ==> ns[i].id !in s.rows && s'.rows[ns[i].id] == ns[i]))
      && (if !o.Done? then s'.creators == s.creators
          else
            && pid in s'.creators && s'.creators[pid].late == None
            && (forall i :: 0 <= i < |ns| ==>
                  && (ns[i].id in s'.creators[pid].todo <==> ns[i].scheduledAt.None?)
                  && (ns[i].scheduledAt.None? ==> s'.creators[pid].todo[ns[i].id] == ns[i]))
            && (forall id :: id in s'.creators[pid].todo ==> exists i :: 0 <= i < |ns| && ns[i].id == id))
  {
    if !o.Refused? { InsertAddsExactly(s.rows, ns); }
    forall i | 0 <= i < |ns| ensures ns[i].id in Ids(ns) {}
  }

  lemma CreatorEnqueuePublishes(s: State, pid: Pid, id: Uuid, o: Outcome)
    requires Enabled(s, CreatorEnqueue(pid, id, o))
    ensures Publishes(s, Apply(s, CreatorEnqueue(pid, id, o)), o, s.creators[pid].todo[id])
  {
    AppendAdds(s.queues, s.creators[pid].todo[id]);
  }

  lemma CreatorMarkWrites(s: State, pid: Pid, o: Outcome)
    requires Enabled(s, CreatorMark(pid, o))
    ensures Updates(s, Apply(s, CreatorMark(pid, o)), o, s.creators[pid].late.value, Queued, None, None)
  {
    SetStatusWrites(s.rows, s.creators[pid].late.value, Queued, None, None);
  }

  /** A pending or queued row is cancelled, any other stays as it is. */
  lemma CancelCallWrites(s: State, id: Uuid, o: Outcome)
    ensures Enabled(s, CancelCall(id, o))
    ensures var s' := Apply(s, CancelCall(id, o));
      && s'.queues == s.queues && s'.buckets == s.buckets && s'.log == s.log && s'.now == s.now
      && if !o.Refused? && id in s.rows && s.rows[id].status in {Pending, Queued}
         then RowWritten(s.rows, s'.rows, id, Cancelled, None, None)
         else s'.rows == s.rows
  {
    CancelWrites(s.rows, id);
  }

  /** The transaction: the selected rows are marked as queued and returned as such. */
  lemma FetchWrites(s: State, pid: Pid, q: Query, ids: seq<Uuid>, at: int, o: Outcome)
    requires Enabled(s, Fetch(pid, q, ToSet(ids), at, o))
    ensures var s' := Apply(s, Fetch(pid, q, ToSet(ids), at, o));
      && s'.queues == s.queues && s'.buckets == s.buckets && s'.log == s.log && s'.now == s.now
      && (if o.Refused? then s'.rows == s.rows else QueuedWritten(s.rows, s'.rows, ids))
      && (if !o.Done? then s'.scheds == s.scheds
          else
            && pid in s'.scheds && s'.scheds[pid].marked == None
            && (forall id :: id in s'.scheds[pid].todo <==> id in ids)
            && forall id :: id in s'.scheds[pid].todo ==>
                 id in s.rows && s'.scheds[pid].todo[id] == s.rows[id].(status := Queued))
  {
    SameElements(ids);
    var all := ToSet(ids);
    assert forall id :: id in all ==> id in s.rows;
    assert forall i :: 0 <= i < |ids| ==> ids[i] in all;
    MarkQueuedWrites(s.rows, ids);
  }

  lemma SameElements(ids: seq<Uuid>)
    ensures forall id :: id in ToSet(ids) <==> id in ids
  {
    forall id ensures id in ToSet(ids) <==> id in ids {
      if id in ids {
        var i :| 0 <= i < |ids| && ids[i] == id;
      }
    }
  }

  lemma SchedMarkWrites(s: State, pid: Pid, id: Uuid, o: Outcome)
    requires Enabled(s, SchedMark(pid, id, o))
    ensures Updates(s, Apply(s, SchedMark(pid, id, o)), o, id, Queued, None, None)
  {
    SetStatusWrites(s.rows, id, Queued, None, None);
  }

  lemma SchedEnqueuePublishes(s: State, pid: Pid, o: Outcome)
    requires Enabled(s, SchedEnqueue(pid, o))
    ensures Publishes(s, Apply(s, SchedEnqueue(pid, o)), o, s.scheds[pid].todo[s.scheds[pid].marked.value])
  {
    AppendAdds(s.queues, s.scheds[pid].todo[s.scheds[pid].marked.value]);
  }

  /** The other steps touch nothing that is shared. */
  lemma QuietSteps(s: State, step: Step)
    requires Enabled(s, step)
    requires step.Tick? || step.CreatorStop? || step.SchedStop? || step.WaitFails? || step.Abandon?
    ensures var s' := Apply(s, step);
      && s'.rows == s.rows && s'.queues == s.queues && s'.buckets == s.buckets && s'.log == s.log
      && s'.now == (if step.Tick? then step.to else s.now)
      && (step.CreatorStop? ==> step.pid !in s'.creators) && (step.SchedStop? ==> step.pid !in s'.scheds)
      && (step.WaitFails? || step.Abandon? ==> step.w in s'.workers && Pc(s', step.w) == Idle)
  {
  }

  lemma WithoutOne<V>(m: map<Uuid, V>, id: Uuid)
    ensures Without(m, id).Keys == m.Keys - {id}
    ensures forall x :: x in Without(m, id) ==> Without(m, id)[x] == m[x]
  {
  }

  /** An API call has one item less to do after each publish, and is late with a status
      write exactly if the publish worked. */
  lemma CreatorMoves(s: State, pid: Pid, id: Uuid, o: Outcome)
    requires Enabled(s, CreatorEnqueue(pid, id, o))
    ensures var s' := Apply(s, CreatorEnqueue(pid, id, o));
      && pid in s'.creators && s'.creators[pid].todo.Keys == s.creators[pid].todo.Keys - {id}
      && s'.creators[pid].late == if o.Done? then Some(id) else None
  {
    WithoutOne(s.creators[pid].todo, id);
  }

  // ------------------------------------------------------ what they add up to

  /** Every entry is in the stream of its own channel and priority. */
  lemma EntriesMatchTheirStream(s: State, key: StreamKey, i: nat)
    requires Reachable(s) && key in s.queues && i < |s.queues[key].entries|
    ensures s.queues[key].entries[i].channel == key.channel
    ensures s.queues[key].entries[i].priority == key.priority
  {
    ReachableInvariant(s);
    assert EntryOk(s, key, i);
    KeysAreFields(s.queues[key].entries[i]);
  }

  /** And every worker has messages of its own channel and priority only. */
  lemma MessagesMatchTheirWorker(s: State, w: Pid)
    requires Reachable(s) && w in s.workers && !Pc(s, w).Idle?
    ensures Pc(s, w).msg.notification.channel == s.workers[w].key.channel
    ensures Pc(s, w).msg.notification.priority == s.workers[w].key.priority
  {
    ReachableInvariant(s);
    assert WorkerOk(s, s.workers[w]);
    KeysAreFields(Pc(s, w).msg.notification);
  }

  lemma KeysAreFields(n: Notification)
    ensures KeyOf(n) == StreamKey(n.channel, n.priority)
  {
  }
}
