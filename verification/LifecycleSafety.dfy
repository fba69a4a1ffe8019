/** What the invariant means for whole runs of the system. */
module LifecycleSafety {
  import opened Entity
  import opened Streams
  import opened Lifecycle
  import opened LifecycleInvariant
  import opened LifecycleSteps
  import opened LifecycleTransfers
  import opened LifecycleTokens

  /** `s` can be reached from a start with empty storage and idle workers. */
  ghost predicate Reachable(s: State) {
    exists s0, steps :: Init(s0) && ValidRun(s0, steps) && After(s0, steps) == s
  }

  lemma ReachableInvariant(s: State)
    requires Reachable(s)
    ensures Inv(s)
  {
    var s0, steps :| Init(s0) && ValidRun(s0, steps) && After(s0, steps) == s;
    InitEstablishes(s0);
    RunKeepsInvariant(s0, steps);
  }

  // ------------------------------------------------------- mutual exclusion

  /** In every reachable state each notification has at most one token. */
  lemma AtMostOneToken(s: State, id: Uuid, p: Place, q: Place)
    requires Reachable(s) && Holds(s, id, p) && Holds(s, id, q)
    ensures p == q
  {
    ReachableInvariant(s);
    if id in s.rows {
      assert IdOk(s, id);
    } else {
      UnknownElsewhere(s, id, p);
    }
  }

  /** No two workers are ever busy with the same notification. */
  lemma NoConcurrentDelivery(s: State, v: Pid, w: Pid)
    requires Reachable(s) && v in s.workers && w in s.workers && v != w
    requires Holding(Pc(s, v)) && Holding(Pc(s, w))
    ensures Pc(s, v).msg.notification.id != Pc(s, w).msg.notification.id
  {
    if Pc(s, v).msg.notification.id == Pc(s, w).msg.notification.id {
      AtMostOneToken(s, Pc(s, v).msg.notification.id, AtWorker(v), AtWorker(w));
    }
  }

  // ------------------------------------------------------- delivery budget

  /** At most one `Send` of a notification ever succeeds, and at most `maxAttempts`
      are made at all. */
  lemma DeliveryBudget(s: State, id: Uuid)
    requires Reachable(s) && id in s.rows
    ensures Successes(s.log, id) <= 1
    ensures |SendTimes(s.log, id)| <= s.rows[id].maxAttempts
  {
    ReachableInvariant(s);
    assert IdOk(s, id);
  }

  /** A recorded provider id is what the one successful `Send` was answered, and no
      continuation changes it. */
  lemma ProviderIdIsTheAnswer(s: State, id: Uuid, steps: seq<Step>)
    requires Reachable(s) && id in s.rows && s.rows[id].providerMessageId.Some?
    requires ValidRun(s, steps)
    ensures ProviderIds(s.log, id) == [s.rows[id].providerMessageId.value]
    ensures id in After(s, steps).rows && After(s, steps).rows[id].providerMessageId == s.rows[id].providerMessageId
  {
    ReachableInvariant(s);
    assert IdOk(s, id);
    RunKeepsInvariant(s, steps);
  }

  /** Successful sends of all notifications in `ids` that carry the key. */
  function SuccessesOfKey(s: State, key: string, ids: seq<Uuid>): nat {
    if ids == [] then 0
    else (if ids[0] in s.rows && s.rows[ids[0]].idempotencyKey == key then Successes(s.log, ids[0]) else 0)
         + SuccessesOfKey(s, key, ids[1..])
  }

  /** Hence at most one successful `Send` per idempotency key, however many
      notifications there are. */
  lemma {:induction false} OneSuccessPerKey(s: State, key: string, ids: seq<Uuid>)
    requires Reachable(s)
    requires forall i, j :: 0 <= i < j < |ids| ==> ids[i] != ids[j]
    ensures SuccessesOfKey(s, key, ids) <= 1
    ensures SuccessesOfKey(s, key, ids) > 0 ==>
              exists i :: 0 <= i < |ids| && ids[i] in s.rows && s.rows[ids[i]].idempotencyKey == key
  {
    if ids != [] {
      var rest := ids[1..];
      OneSuccessPerKey(s, key, rest);
      if SuccessesOfKey(s, key, rest) > 0 {
        var i :| 0 <= i < |rest| && rest[i] in s.rows && s.rows[rest[i]].idempotencyKey == key;
        assert ids[i + 1] == rest[i] && ids[0] != ids[i + 1];
        ReachableInvariant(s);
      }
      if ids[0] in s.rows { DeliveryBudget(s, ids[0]); }
    }
  }

  // ---------------------------------------------------- snapshots and rows

  /** The entries of a notification, in stream order, carry the attempt numbers
      0, 1, 2, ... */
  lemma EntriesAreNumbered(s: State, id: Uuid, k: nat)
    requires Reachable(s) && id in s.rows
    requires k < |EntryAttempts(At(s.queues, KeyOf(s.rows[id])).entries, id)|
    ensures EntryAttempts(At(s.queues, KeyOf(s.rows[id])).entries, id)[k] == k
  {
    ReachableInvariant(s);
    assert IdOk(s, id);
  }

  /** An unread entry, and a message that a worker has not yet counted, carries the
      row's attempt counter, which is below the budget. */
  lemma SnapshotsAgree(s: State, id: Uuid, p: Place)
    requires Reachable(s) && Holds(s, id, p)
    ensures id in s.rows
    ensures match TokenAt(s, id, p).value
            case Creating(n) => Agrees(n, s.rows[id])
            case Fetched(n) => Agrees(n, s.rows[id])
            case Unread(n) => Agrees(n, s.rows[id]) && n.attempts < n.maxAttempts
            case Held(pc) =>
              !pc.Counted? ==> (&& Agrees(pc.msg.notification, s.rows[id])
                                && pc.msg.notification.attempts < pc.msg.notification.maxAttempts)
            case _ => true
  {
    ReachableInvariant(s);
    if id !in s.rows { UnknownElsewhere(s, id, p); }
    assert IdOk(s, id);
    assert TokenOk(s.cfg, s.rows[id], TokenAt(s, id, p).value, PastOf(s, id), s.now);
  }

  /** The attempt counter never passes the budget, and a failed row has a retry time
      exactly when it is retryable. */
  lemma FailedRowsRetryWithinBudget(s: State, id: Uuid)
    requires Reachable(s) && id in s.rows
    ensures s.rows[id].attempts <= s.rows[id].maxAttempts
    ensures s.rows[id].status == Failed ==> (s.rows[id].nextRetryAt.Some? <==> s.rows[id].IsRetryable())
  {
    ReachableInvariant(s);
    assert IdOk(s, id);
  }

  // ------------------------------------------------------------------ timing

  /** Nothing is sent before its time, and two sends of the same notification are at
      least the base delay apart. */
  lemma SendsAreTimely(s: State, id: Uuid)
    requires Reachable(s) && id in s.rows
    ensures s.rows[id].scheduledAt.Some? ==>
              forall t :: t in SendTimes(s.log, id) ==> s.rows[id].scheduledAt.value <= t
    ensures forall i, j :: 0 <= i < j < |SendTimes(s.log, id)| ==>
              SendTimes(s.log, id)[i] + s.cfg.baseDelay <= SendTimes(s.log, id)[j]
    ensures forall i :: 0 < i < |SendTimes(s.log, id)| ==>
              SendTimes(s.log, id)[i - 1] + Gap(s.cfg, i) <= SendTimes(s.log, id)[i]
  {
    ReachableInvariant(s);
    assert IdOk(s, id);
    assert PastOf(s, id).sends == SendTimes(s.log, id);
  }

  // --------------------------------------------------------- acknowledgement

  /** An acknowledged entry has a durable outcome, now and in every continuation. */
  lemma AcknowledgedIsDurable(s: State, key: StreamKey, i: nat, steps: seq<Step>)
    requires Reachable(s) && key in s.queues && i < |s.queues[key].entries| && s.queues[key].Acked(i)
    requires ValidRun(s, steps)
    ensures Durable(s.rows, s.queues[key].entries[i])
    ensures Durable(After(s, steps).rows, s.queues[key].entries[i])
  {
    ReachableInvariant(s);
    assert EntryOk(s, key, i);
    RunKeepsInvariant(s, steps);
    DurableKept(s, After(s, steps), s.queues[key].entries[i]);
  }

  /** An acknowledgement names the stream and the entry that the message came from. */
  lemma AckNamesItsOwnEntry(s: State, w: Pid, o: Outcome)
    requires Reachable(s) && Enabled(s, AckEntry(w, o))
    ensures var msg := Pc(s, w).msg;
      && KeyOf(msg.notification) == s.workers[w].key && s.workers[w].key in s.queues
      && msg.streamMsgId < |s.queues[s.workers[w].key].entries|
      && s.queues[s.workers[w].key].entries[msg.streamMsgId] == msg.notification
  {
    ReachableInvariant(s);
    assert WorkerOk(s, s.workers[w]);
  }

  // ---------------------------------------------------------- bounded moves

  /** Every run moves the token of a notification at most ten times per attempt. */
  lemma TokenMovesAreBounded(s0: State, steps: seq<Step>, id: Uuid)
    requires Init(s0) && ValidRun(s0, steps) && id in After(s0, steps).rows
    ensures CountMoves(s0, steps, id) <= 10 * After(s0, steps).rows[id].maxAttempts
  {
    InitEstablishes(s0);
    MovesAreBounded(s0, steps, id);
  }
}
