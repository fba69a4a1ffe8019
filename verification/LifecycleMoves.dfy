/** Where each step that moves a token takes it, and that it moves no other. */
module LifecycleMoves {
  import opened Wrappers
  import opened Entity
  import opened NotificationTable
  import opened Streams
  import opened Lifecycle
  import opened LifecycleInvariant
  import opened LifecycleSteps
  import opened LifecycleTransfers

  /** The tokens of a notification are where they were. */
  ghost predicate SameTokens(s: State, s': State, id: Uuid) {
    forall p :: TokenAt(s', id, p) == TokenAt(s, id, p)
  }

  /** `p` is the one place of its token. */
  ghost predicate OnlyAt(s: State, id: Uuid, p: Place) {
    Holds(s, id, p) && forall q :: Holds(s, id, q) ==> q == p
  }

  lemma EnqueueMoves(s: State, s': State, n: Notification, from: Place)
    requires Inv(s) && OnlyEnqueues(s, s', n, from)
    requires forall pid, id :: id != n.id ==>
               && TokenAt(s', id, AtCreator(pid)) == TokenAt(s, id, AtCreator(pid))
               && TokenAt(s', id, AtSched(pid)) == TokenAt(s, id, AtSched(pid))
    ensures OnlyAt(s', n.id, NextPlace(s, n)) && TokenAt(s', n.id, NextPlace(s, n)) == Some(Unread(n))
    ensures forall id :: id != n.id ==> SameTokens(s, s', id)
  {
    assert IdOk(s, n.id);
    assert forall p :: Holds(s, n.id, p) ==> p == from;
    EnqueueMovesToken(s, s', n, from);
    forall id, p | id != n.id ensures TokenAt(s', id, p) == TokenAt(s, id, p) {
      if p.AtStream? && p.key == KeyOf(n) && Holds(s', id, p) { EnqueueOtherToken(s, s', n, from, id, p); }
    }
  }

  /** The XADD of an API call hands its token to the end of the stream. */
  lemma CreatorEnqueueMoves(s: State, pid: Pid, id: Uuid, o: Outcome)
    requires Inv(s) && Enabled(s, CreatorEnqueue(pid, id, o)) && !o.Refused?
    ensures var s', n := Apply(s, CreatorEnqueue(pid, id, o)), s.creators[pid].todo[id];
      && Holds(s, id, AtCreator(pid)) && OnlyAt(s', id, NextPlace(s, n))
      && TokenAt(s', id, NextPlace(s, n)) == Some(Unread(n))
      && forall x :: x != id ==> SameTokens(s, s', x)
  {
    CreatorEnqueues(s, pid, id, o);
    EnqueueMoves(s, Apply(s, CreatorEnqueue(pid, id, o)), s.creators[pid].todo[id], AtCreator(pid));
  }

  /** The XADD of a scheduler hands its token to the end of the stream. */
  lemma SchedEnqueueMoves(s: State, pid: Pid, o: Outcome)
    requires Inv(s) && Enabled(s, SchedEnqueue(pid, o)) && !o.Refused?
    ensures var s', id := Apply(s, SchedEnqueue(pid, o)), s.scheds[pid].marked.value;
      var n := s.scheds[pid].todo[id];
      && Holds(s, id, AtSched(pid)) && OnlyAt(s', id, NextPlace(s, n))
      && TokenAt(s', id, NextPlace(s, n)) == Some(Unread(n))
      && forall x :: x != id ==> SameTokens(s, s', x)
  {
    SchedEnqueues(s, pid, o);
    var id := s.scheds[pid].marked.value;
    EnqueueMoves(s, Apply(s, SchedEnqueue(pid, o)), s.scheds[pid].todo[id], AtSched(pid));
  }

  /** An XREADGROUP takes the token of the next entry to the worker that reads it; if
      the reply is lost, so is the token. */
  lemma DequeueMoves(s: State, w: Pid, o: Outcome)
    requires Inv(s) && Enabled(s, Dequeue(w, o)) && !o.Refused?
    ensures var s', stream := Apply(s, Dequeue(w, o)), At(s.queues, s.workers[w].key);
      var n := stream.entries[stream.cursor];
      && Holds(s, n.id, AtStream(s.workers[w].key, stream.cursor))
      && (if o.Done? then
            && OnlyAt(s', n.id, AtWorker(w))
            && TokenAt(s', n.id, AtWorker(w)) == Some(Held(Got(QueueMessage(stream.cursor, n))))
          else NoToken(s', n.id))
      && forall x :: x != n.id ==> SameTokens(s, s', x)
  {
    var stream := At(s.queues, s.workers[w].key);
    var x := stream.entries[stream.cursor].id;
    assert EntryOk(s, s.workers[w].key, stream.cursor) && IdOk(s, x);
    assert Holds(s, x, AtStream(s.workers[w].key, stream.cursor));
    DequeueMovesToken(s, w, o, x);
    forall y | y != x ensures SameTokens(s, Apply(s, Dequeue(w, o)), y) { DequeueMovesNoOther(s, w, o, y); }
  }

  lemma DequeueMovesNoOther(s: State, w: Pid, o: Outcome, y: Uuid)
    requires AllValid(s.queues) && Enabled(s, Dequeue(w, o)) && !o.Refused?
    requires y != At(s.queues, s.workers[w].key).entries[At(s.queues, s.workers[w].key).cursor].id
    ensures SameTokens(s, Apply(s, Dequeue(w, o)), y)
  {
    forall p ensures TokenAt(Apply(s, Dequeue(w, o)), y, p) == TokenAt(s, y, p) {}
  }

  /** The fetch transaction takes the tokens of the selected rows, and only theirs, to
      the scheduler; if its reply is lost, so are they. */
  lemma FetchMoves(s: State, pid: Pid, q: Query, ids: set<Uuid>, at: int, o: Outcome, id: Uuid)
    requires Inv(s) && Enabled(s, Fetch(pid, q, ids, at, o)) && !o.Refused?
    ensures var s' := Apply(s, Fetch(pid, q, ids, at, o));
      && (id !in ids ==> SameTokens(s, s', id))
      && (id in ids ==> Holds(s, id, AtRow))
      && (id in ids && o.Lost? ==> NoToken(s', id))
      && (id in ids && o.Done? ==>
            && OnlyAt(s', id, AtSched(pid))
            && TokenAt(s', id, AtSched(pid)) == Some(Fetched(s.rows[id].(status := Queued))))
  {
    if id in ids {
      assert IdOk(s, id);
      FetchMovesToken(s, pid, q, ids, at, o, id);
    } else {
      FetchMovesNoOther(s, pid, q, ids, at, o, id);
    }
  }

  lemma FetchMovesNoOther(s: State, pid: Pid, q: Query, ids: set<Uuid>, at: int, o: Outcome, id: Uuid)
    requires Enabled(s, Fetch(pid, q, ids, at, o)) && !o.Refused? && id !in ids
    ensures SameTokens(s, Apply(s, Fetch(pid, q, ids, at, o)), id)
  {
    forall p ensures TokenAt(Apply(s, Fetch(pid, q, ids, at, o)), id, p) == TokenAt(s, id, p) {}
  }

  /** Marking as failed takes the token back to the row if a retry is planned, and ends
      it otherwise. */
  lemma MarkFailedMoves(s: State, w: Pid, o: Outcome)
    requires Inv(s) && Enabled(s, MarkFailed(w, o)) && !o.Refused?
    ensures var s', x := Apply(s, MarkFailed(w, o)), Pc(s, w).msg.notification.id;
      && x in s'.rows && Holds(s, x, AtWorker(w))
      && (if s'.rows[x].nextRetryAt.Some? then OnlyAt(s', x, AtRow) && TokenAt(s', x, AtRow) == Some(RetryDue)
          else NoToken(s', x))
      && forall id :: id != x ==> SameTokens(s, s', id)
  {
    HeldBy(s, w);
    var s', x := Apply(s, MarkFailed(w, o)), Pc(s, w).msg.notification.id;
    MarkFailedLeavesWorker(s, w, o);
    assert RowToken(s'.rows[x]) == if s'.rows[x].nextRetryAt.Some? then Some(RetryDue) else None;
    forall id | id != x ensures SameTokens(s, s', id) { MarkFailedMovesNoOther(s, w, o, id); }
  }

  lemma MarkFailedLeavesWorker(s: State, w: Pid, o: Outcome)
    requires Enabled(s, MarkFailed(w, o)) && !o.Refused?
    requires SingleToken(s, Pc(s, w).msg.notification.id)
    ensures forall p :: Holds(Apply(s, MarkFailed(w, o)), Pc(s, w).msg.notification.id, p) ==> p == AtRow
  {
    var s', x := Apply(s, MarkFailed(w, o)), Pc(s, w).msg.notification.id;
    assert Holds(s, x, AtWorker(w));
    assert forall p :: Holds(s, x, p) ==> p == AtWorker(w);
    forall p | Holds(s', x, p) ensures p == AtRow {
      assert p == AtRow || Holds(s, x, p);
    }
  }

  lemma MarkFailedMovesNoOther(s: State, w: Pid, o: Outcome, id: Uuid)
    requires Enabled(s, MarkFailed(w, o)) && id != Pc(s, w).msg.notification.id
    ensures SameTokens(s, Apply(s, MarkFailed(w, o)), id)
  {
    forall p ensures TokenAt(Apply(s, MarkFailed(w, o)), id, p) == TokenAt(s, id, p) {}
  }

  /** An acknowledgement moves no token. */
  lemma AckMoves(s: State, w: Pid, o: Outcome, id: Uuid)
    requires Enabled(s, AckEntry(w, o))
    ensures SameTokens(s, Apply(s, AckEntry(w, o)), id)
  {
    forall p ensures TokenAt(Apply(s, AckEntry(w, o)), id, p) == TokenAt(s, id, p) {}
  }
}
