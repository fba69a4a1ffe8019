/** The steps that move a token from one place to another keep the invariant, and
    with them every step of every run. */
module LifecycleTransfers {
  import opened Wrappers
  import opened Entity
  import opened NotificationTable
  import opened Streams
  import opened Lifecycle
  import opened LifecycleInvariant
  import opened LifecycleSteps

  // ------------------------------------------ worker records a failure

  /** One row's attempt counter goes up by one. */
  ghost predicate OnlyCounts(s: State, s': State, x: Uuid, next: Option<int>) {
    && s' == s.(rows := s'.rows, workers := s'.workers)
    && x in s.rows && s'.rows == Increment(s.rows, x, next, s.now)
  }

  /** Worker `w` has counted the attempt of its message, and knows it or has stopped. */
  ghost predicate CountsFor(s: State, s': State, w: Pid) {
    && w in s.workers && Pc(s, w).Planned?
    && OnlyCounts(s, s', Pc(s, w).msg.notification.id, Pc(s, w).next)
    && (s'.workers == s.workers[w := s.workers[w].(pc := Counted(Pc(s, w).msg, Pc(s, w).error))]
        || s'.workers == s.workers[w := s.workers[w].(pc := Idle)])
  }

  lemma CountExtends(s: State, s': State, x: Uuid, next: Option<int>)
    requires RowsOk(s) && QueuesOk(s) && OnlyCounts(s, s', x, next)
    ensures Extends(s, s') && RowsOk(s') && QueuesOk(s')
  {
    QueuesKept(s, s');
    SameKeysUnique(s.rows, s'.rows);
  }

  lemma CountUndisturbed(s: State, s': State, w: Pid, id: Uuid)
    requires CountsFor(s, s', w) && id in s.rows && id != Pc(s, w).msg.notification.id && IdOk(s, id)
    ensures Undisturbed(s, s', id)
  {
    forall p ensures TokenAt(s', id, p) == TokenAt(s, id, p) && Holds(s', id, p) == Holds(s, id, p) {}
  }

  lemma CountSettles(s: State, s': State, w: Pid)
    requires Inv(s) && CountsFor(s, s', w)
    ensures Pc(s, w).msg.notification.id in s'.rows && IdOk(s', Pc(s, w).msg.notification.id)
  {
    HeldBy(s, w);
    CountKeepsToken(s, s', w);
    Settle(s', Pc(s, w).msg.notification.id, AtWorker(w));
  }

  lemma CountKeepsToken(s: State, s': State, w: Pid)
    requires CountsFor(s, s', w)
    requires var x := Pc(s, w).msg.notification.id;
      SingleToken(s, x) && !Holds(s, x, AtRow) && s.rows[x].status != Failed
    ensures forall p :: Holds(s', Pc(s, w).msg.notification.id, p) ==> p == AtWorker(w)
  {
    var x := Pc(s, w).msg.notification.id;
    assert Holds(s, x, AtWorker(w));
    assert forall p :: Holds(s, x, p) ==> p == AtWorker(w);
    forall p | Holds(s', x, p) ensures p == AtWorker(w) {
      assert p == AtWorker(w) || Holds(s, x, p);
    }
  }

  lemma CountKeeps(s: State, s': State, w: Pid)
    requires Inv(s) && CountsFor(s, s', w)
    ensures Inv(s') && Extends(s, s')
  {
    HeldBy(s, w);
    var x := Pc(s, w).msg.notification.id;
    CountExtends(s, s', x, Pc(s, w).next);
    WorkerKept(s, s', s.workers[w]);
    ProcessesKept(s, s', {}, {}, {w});
    forall id | id in s'.rows && id !in {x} ensures Undisturbed(s, s', id) {
      assert IdOk(s, id);
      CountUndisturbed(s, s', w, id);
    }
    CountSettles(s, s', w);
    KeepAll(s, s', {x});
  }

  lemma CountAttemptCounts(s: State, w: Pid, o: Outcome)
    requires Inv(s) && Enabled(s, CountAttempt(w, o)) && !o.Refused?
    ensures CountsFor(s, Apply(s, CountAttempt(w, o)), w)
  {
    HeldBy(s, w);
  }

  lemma CountAttemptKeeps(s: State, w: Pid, o: Outcome)
    requires Inv(s) && Enabled(s, CountAttempt(w, o))
    ensures Inv(Apply(s, CountAttempt(w, o))) && Extends(s, Apply(s, CountAttempt(w, o)))
  {
    if o.Refused? {
      DropsKeep(s, Apply(s, CountAttempt(w, o)));
    } else {
      CountAttemptCounts(s, w, o);
      CountKeeps(s, Apply(s, CountAttempt(w, o)), w);
    }
  }

  /** A failed row with budget left becomes its own token. */
  ghost predicate OnlyFails(s: State, s': State, w: Pid) {
    && w in s.workers && Pc(s, w).Counted?
    && s' == s.(rows := SetStatus(s.rows, Pc(s, w).msg.notification.id, Failed, None, Some(Pc(s, w).error)),
                workers := s.workers[w := s.workers[w].(pc := Idle)])
  }

  lemma FailUndisturbed(s: State, s': State, w: Pid, id: Uuid)
    requires OnlyFails(s, s', w) && id in s.rows && IdOk(s, id)
    requires id != Pc(s, w).msg.notification.id
    ensures Undisturbed(s, s', id)
  {
    forall p ensures TokenAt(s', id, p) == TokenAt(s, id, p) && Holds(s', id, p) == Holds(s, id, p) {}
  }

  /** A counted attempt leaves the row ready for its retry, or exhausted. */
  lemma CountedVouches(c: Config, row: Notification, pc: WorkerPc, past: Past, now: int)
    requires pc.Counted? && HeldOk(c, row, pc, past, now) && PastOk(c, row, past, now)
    ensures var row' := row.(status := Failed, errorMessage := Some(pc.error));
      && RowOk(row') && PastOk(c, row', past, now)
      && (RowToken(row').Some? ==> RowToken(row') == Some(RetryDue) && TokenOk(c, row', RetryDue, past, now))
  {
  }

  lemma FailMovesToken(s: State, s': State, w: Pid)
    requires OnlyFails(s, s', w) && SingleToken(s, Pc(s, w).msg.notification.id)
    ensures forall p :: Holds(s', Pc(s, w).msg.notification.id, p) ==> p == AtRow
  {
    var x := Pc(s, w).msg.notification.id;
    assert Holds(s, x, AtWorker(w));
    assert forall p :: Holds(s, x, p) ==> p == AtWorker(w);
    forall p | Holds(s', x, p) ensures p == AtRow {
      assert p == AtRow || Holds(s, x, p);
    }
  }

  lemma FailSettles(s: State, s': State, w: Pid)
    requires Inv(s) && OnlyFails(s, s', w)
    ensures Pc(s, w).msg.notification.id in s'.rows && IdOk(s', Pc(s, w).msg.notification.id)
  {
    HeldBy(s, w);
    var x := Pc(s, w).msg.notification.id;
    FailMovesToken(s, s', w);
    CountedVouches(s.cfg, s.rows[x], Pc(s, w), PastOf(s, x), s.now);
    assert PastOf(s', x) == PastOf(s, x);
    Settle(s', x, AtRow);
  }

  lemma FailExtends(s: State, s': State, w: Pid)
    requires Inv(s) && OnlyFails(s, s', w)
    ensures Extends(s, s') && RowsOk(s') && QueuesOk(s') && ProcessesOk(s')
  {
    QueuesKept(s, s');
    SameKeysUnique(s.rows, s'.rows);
    ProcessesKept(s, s', {}, {}, {w});
  }

  lemma FailKeeps(s: State, s': State, w: Pid)
    requires Inv(s) && OnlyFails(s, s', w)
    ensures Inv(s') && Extends(s, s')
  {
    HeldBy(s, w);
    var x := Pc(s, w).msg.notification.id;
    FailExtends(s, s', w);
    forall id | id in s'.rows && id !in {x} ensures Undisturbed(s, s', id) {
      assert IdOk(s, id);
      FailUndisturbed(s, s', w, id);
    }
    FailSettles(s, s', w);
    KeepAll(s, s', {x});
  }

  lemma MarkFailedTakesEffect(s: State, w: Pid, s1: State)
    requires Inv(s) && w in s.workers && Pc(s, w).Counted?
    requires s1 == SetPc(WriteStatus(s, Done, Pc(s, w).msg.notification.id, Failed, None, Some(Pc(s, w).error)),
                         w, Idle)
    ensures Inv(s1) && Extends(s, s1) && WorkerOk(s1, s1.workers[w].(pc := Acking(Pc(s, w).msg)))
  {
    FailKeeps(s, s1, w);
    HeldBy(s, w);
    var n := Pc(s, w).msg.notification;
    assert Durable(s1.rows, n);
  }

  lemma MarkFailedDone(s: State, w: Pid)
    requires Inv(s) && Enabled(s, MarkFailed(w, Done))
    ensures Inv(Apply(s, MarkFailed(w, Done))) && Extends(s, Apply(s, MarkFailed(w, Done)))
  {
    var pc := Pc(s, w);
    var s1 := SetPc(WriteStatus(s, Done, pc.msg.notification.id, Failed, None, Some(pc.error)), w, Idle);
    MarkFailedTakesEffect(s, w, s1);
    IdleToAcking(s1, w, pc.msg);
    assert Apply(s, MarkFailed(w, Done)) == SetPc(s1, w, Acking(pc.msg));
  }

  lemma MarkFailedKeeps(s: State, w: Pid, o: Outcome)
    requires Inv(s) && Enabled(s, MarkFailed(w, o))
    ensures Inv(Apply(s, MarkFailed(w, o))) && Extends(s, Apply(s, MarkFailed(w, o)))
  {
    match o
    case Done => MarkFailedDone(s, w);
    case Lost => MarkFailedTakesEffect(s, w, Apply(s, MarkFailed(w, o)));
    case Refused => DropsKeep(s, Apply(s, MarkFailed(w, o)));
  }

  // ------------------------------------------------ acknowledging entries

  lemma AckQueues(s: State, s': State, w: Pid)
    requires Inv(s) && w in s.workers && Pc(s, w).Acking?
    requires s' == s.(queues := Acknowledge(s.queues, s.workers[w].key, Pc(s, w).msg.streamMsgId))
    ensures QueuesOk(s') && Extends(s, s')
  {
    assert WorkerOk(s, s.workers[w]);
    forall key, i | key in s'.queues && 0 <= i < |s'.queues[key].entries| ensures EntryOk(s', key, i) {
      assert EntryOk(s, key, i);
    }
  }

  lemma AckKeeps(s: State, w: Pid)
    requires Inv(s) && w in s.workers && Pc(s, w).Acking?
    ensures Inv(s.(queues := Acknowledge(s.queues, s.workers[w].key, Pc(s, w).msg.streamMsgId)))
    ensures Extends(s, s.(queues := Acknowledge(s.queues, s.workers[w].key, Pc(s, w).msg.streamMsgId)))
  {
    var s' := s.(queues := Acknowledge(s.queues, s.workers[w].key, Pc(s, w).msg.streamMsgId));
    AckQueues(s, s', w);
    ProcessesKept(s, s', {}, {}, {});
    forall id | id in s'.rows ensures Undisturbed(s, s', id) {
      assert IdOk(s, id);
      forall p ensures TokenAt(s', id, p) == TokenAt(s, id, p) && Holds(s', id, p) == Holds(s, id, p) {}
    }
    KeepAll(s, s', {});
  }

  lemma AckEntryKeeps(s: State, w: Pid, o: Outcome)
    requires Inv(s) && Enabled(s, AckEntry(w, o))
    ensures Inv(Apply(s, AckEntry(w, o))) && Extends(s, Apply(s, AckEntry(w, o)))
  {
    var s' := Apply(s, AckEntry(w, o));
    assert WorkerOk(s, s.workers[w]);
    if o.Refused? {
      DropsKeep(s, s');
    } else {
      var s1 := s.(queues := Acknowledge(s.queues, s.workers[w].key, Pc(s, w).msg.streamMsgId));
      AckKeeps(s, w);
      DropsKeep(s1, s');
    }
  }

  // ------------------------------------------------------------ enqueueing

  /** The place of an entry that is about to be appended. */
  function NextPlace(s: State, n: Notification): Place {
    AtStream(KeyOf(n), |At(s.queues, KeyOf(n)).entries|)
  }

  lemma AppendExtends(s: State, s': State, n: Notification)
    requires QueuesOk(s) && s'.cfg == s.cfg && s'.now == s.now && s'.rows == s.rows
    requires s'.queues == Append(s.queues, n)
    requires n.id in s.rows && SameIdentity(n, s.rows[n.id])
    ensures QueuesOk(s') && Extends(s, s')
  {
    forall key, i | key in s'.queues && 0 <= i < |s'.queues[key].entries| ensures EntryOk(s', key, i) {
      if key in s.queues && i < |s.queues[key].entries| { assert EntryOk(s, key, i); }
    }
  }

  /** The token of `n.id` goes from its process to the end of a stream. */
  ghost predicate OnlyEnqueues(s: State, s': State, n: Notification, from: Place) {
    && s' == s.(queues := Append(s.queues, n), creators := s'.creators, scheds := s'.scheds)
    && n.id in s.rows && Holds(s, n.id, from)
    && (from.AtCreator? || from.AtSched?)
    && (TokenAt(s, n.id, from) == Some(Creating(n)) || TokenAt(s, n.id, from) == Some(Fetched(n)))
    && (forall pid, id :: Holds(s', id, AtCreator(pid)) ==>
          TokenAt(s', id, AtCreator(pid)) == TokenAt(s, id, AtCreator(pid)) && (id == n.id ==> AtCreator(pid) != from))
    && (forall pid, id :: Holds(s', id, AtSched(pid)) ==>
          TokenAt(s', id, AtSched(pid)) == TokenAt(s, id, AtSched(pid)) && (id == n.id ==> AtSched(pid) != from))
  }

  lemma EnqueueOtherToken(s: State, s': State, n: Notification, from: Place, id: Uuid, p: Place)
    requires OnlyEnqueues(s, s', n, from) && AllValid(s.queues) && id != n.id && Holds(s', id, p)
    ensures TokenAt(s', id, p) == TokenAt(s, id, p)
  {
    if p.AtStream? {
      assert p.key == KeyOf(n) ==> p.index < |At(s.queues, KeyOf(n)).entries|;
    }
  }

  lemma EnqueueUndisturbed(s: State, s': State, n: Notification, from: Place, id: Uuid)
    requires OnlyEnqueues(s, s', n, from) && AllValid(s.queues)
    requires id in s.rows && IdOk(s, id) && id != n.id
    ensures Undisturbed(s, s', id)
  {
    forall p | Holds(s', id, p) ensures TokenAt(s', id, p) == TokenAt(s, id, p) && Holds(s, id, p) {
      EnqueueOtherToken(s, s', n, from, id, p);
    }
  }

  lemma EnqueueMovesToken(s: State, s': State, n: Notification, from: Place)
    requires OnlyEnqueues(s, s', n, from) && AllValid(s.queues)
    requires SingleToken(s, n.id)
    requires !Holds(s, n.id, AtRow)
    ensures forall p :: Holds(s', n.id, p) ==> p == NextPlace(s, n)
    ensures TokenAt(s', n.id, NextPlace(s, n)) == Some(Unread(n))
  {
    var x, to := n.id, NextPlace(s, n);
    assert forall p :: Holds(s, x, p) ==> p == from;
    forall p | Holds(s', x, p) ensures p == to {
      assert p == to || Holds(s, x, p);
    }
  }

  lemma EnqueuePast(s: State, s': State, n: Notification, from: Place)
    requires OnlyEnqueues(s, s', n, from) && KeyOf(n) == KeyOf(s.rows[n.id])
    ensures PastOf(s', n.id) == PastOf(s, n.id).(entries := PastOf(s, n.id).entries + [n.attempts])
  {
    var entries := At(s.queues, KeyOf(n)).entries;
    assert (entries + [n])[..|entries|] == entries;
  }

  /** The new entry carries the number of the attempt it is for. */
  lemma EntryVouches(c: Config, row: Notification, token: Token, n: Notification, past: Past, now: int)
    requires token == Creating(n) || token == Fetched(n)
    requires TokenOk(c, row, token, past, now) && PastOk(c, row, past, now)
    ensures var past' := past.(entries := past.entries + [n.attempts]);
      TokenOk(c, row, Unread(n), past', now) && PastOk(c, row, past', now)
  {
  }

  lemma EnqueueSettles(s: State, s': State, n: Notification, from: Place)
    requires OnlyEnqueues(s, s', n, from) && AllValid(s.queues) && IdOk(s, n.id)
    requires s.rows[n.id].id == n.id
    ensures IdOk(s', n.id)
  {
    var x := n.id;
    assert forall p :: Holds(s, x, p) ==> p == from;
    EnqueueMovesToken(s, s', n, from);
    EntryVouches(s.cfg, s.rows[x], TokenAt(s, x, from).value, n, PastOf(s, x), s.now);
    EnqueuePast(s, s', n, from);
    Settle(s', x, NextPlace(s, n));
  }

  lemma EnqueueKeepsIds(s: State, s': State, n: Notification, from: Place)
    requires IdsOk(s) && AllValid(s.queues) && OnlyEnqueues(s, s', n, from)
    requires s.rows[n.id].id == n.id
    ensures IdsOk(s')
  {
    assert IdOk(s, n.id);
    forall id | id in s'.rows && id !in {n.id} ensures Undisturbed(s, s', id) {
      assert IdOk(s, id);
      EnqueueUndisturbed(s, s', n, from, id);
    }
    EnqueueSettles(s, s', n, from);
    KeepAll(s, s', {n.id});
  }

  /** What the invariant says of a notification that a creator or scheduler has. */
  lemma TodoAgrees(s: State, id: Uuid, from: Place)
    requires Inv(s) && id in s.rows && Holds(s, id, from) && (from.AtCreator? || from.AtSched?)
    ensures var token := TokenAt(s, id, from).value;
      && (token.Creating? || token.Fetched?) && Agrees(token.n, s.rows[id]) && token.n.id == id
      && (token.Creating? ==> s.rows[id].scheduledAt.None?)
  {
    assert IdOk(s, id);
    assert s.rows[id].id == id;
  }

  /** The token of an API call or a scheduler goes to its stream. */
  lemma EnqueueKeeps(s: State, s': State, n: Notification, from: Place, creator: set<Pid>, sched: set<Pid>)
    requires Inv(s) && OnlyEnqueues(s, s', n, from) && n.id in s.rows && SameIdentity(n, s.rows[n.id])
    requires forall pid :: pid in s'.creators ==>
               if pid in creator then CreatorOk(s', s'.creators[pid])
               else pid in s.creators && s'.creators[pid] == s.creators[pid]
    requires forall pid :: pid in s'.scheds ==>
               if pid in sched then SchedOk(s', s'.scheds[pid])
               else pid in s.scheds && s'.scheds[pid] == s.scheds[pid]
    ensures Inv(s') && Extends(s, s')
  {
    AppendExtends(s, s', n);
    ProcessesKept(s, s', creator, sched, {});
    EnqueueKeepsIds(s, s', n, from);
  }

  lemma CreatorEnqueues(s: State, pid: Pid, id: Uuid, o: Outcome)
    requires Inv(s) && Enabled(s, CreatorEnqueue(pid, id, o)) && !o.Refused?
    ensures var s', n := Apply(s, CreatorEnqueue(pid, id, o)), s.creators[pid].todo[id];
      && n.id == id && id in s.rows && SameIdentity(n, s.rows[id]) && OnlyEnqueues(s, s', n, AtCreator(pid))
      && CreatorOk(s', s'.creators[pid])
  {
    assert CreatorOk(s, s.creators[pid]);
    assert Holds(s, id, AtCreator(pid));
    TodoAgrees(s, id, AtCreator(pid));
  }

  lemma CreatorEnqueueKeeps(s: State, pid: Pid, id: Uuid, o: Outcome)
    requires Inv(s) && Enabled(s, CreatorEnqueue(pid, id, o))
    ensures Inv(Apply(s, CreatorEnqueue(pid, id, o))) && Extends(s, Apply(s, CreatorEnqueue(pid, id, o)))
  {
    var s' := Apply(s, CreatorEnqueue(pid, id, o));
    if o.Refused? {
      DropsKeep(s, s');
    } else {
      CreatorEnqueues(s, pid, id, o);
      EnqueueKeeps(s, s', s.creators[pid].todo[id], AtCreator(pid), {pid}, {});
    }
  }

  lemma SchedEnqueues(s: State, pid: Pid, o: Outcome)
    requires Inv(s) && Enabled(s, SchedEnqueue(pid, o)) && !o.Refused?
    ensures var s', id := Apply(s, SchedEnqueue(pid, o)), s.scheds[pid].marked.value;
      var n := s.scheds[pid].todo[id];
      && n.id == id && id in s.rows && SameIdentity(n, s.rows[id]) && OnlyEnqueues(s, s', n, AtSched(pid))
      && SchedOk(s', s'.scheds[pid])
  {
    assert SchedOk(s, s.scheds[pid]);
    var id := s.scheds[pid].marked.value;
    assert Holds(s, id, AtSched(pid));
    TodoAgrees(s, id, AtSched(pid));
    SchedOnlyEnqueues(s, pid, o, id);
  }

  lemma SchedOnlyEnqueues(s: State, pid: Pid, o: Outcome, id: Uuid)
    requires Enabled(s, SchedEnqueue(pid, o)) && !o.Refused? && s.scheds[pid].marked == Some(id)
    requires id in s.rows && s.scheds[pid].todo[id].id == id
    ensures OnlyEnqueues(s, Apply(s, SchedEnqueue(pid, o)), s.scheds[pid].todo[id], AtSched(pid))
  {
  }

  lemma SchedEnqueueKeeps(s: State, pid: Pid, o: Outcome)
    requires Inv(s) && Enabled(s, SchedEnqueue(pid, o))
    ensures Inv(Apply(s, SchedEnqueue(pid, o))) && Extends(s, Apply(s, SchedEnqueue(pid, o)))
  {
    var s' := Apply(s, SchedEnqueue(pid, o));
    if o.Refused? {
      DropsKeep(s, s');
    } else {
      SchedEnqueues(s, pid, o);
      EnqueueKeeps(s, s', s.scheds[pid].todo[s.scheds[pid].marked.value], AtSched(pid), {}, {pid});
    }
  }

  // -------------------------------------------------------------- dequeueing

  lemma ReadExtends(s: State, s': State, key: StreamKey)
    requires QueuesOk(s) && s'.cfg == s.cfg && s'.now == s.now && s'.rows == s.rows
    requires s'.queues == ReadOne(s.queues, key)
    ensures QueuesOk(s') && Extends(s, s')
  {
    forall k, i | k in s'.queues && 0 <= i < |s'.queues[k].entries| ensures EntryOk(s', k, i) {
      assert EntryOk(s, k, i);
    }
  }

  lemma DequeueUndisturbed(s: State, w: Pid, o: Outcome, id: Uuid)
    requires Enabled(s, Dequeue(w, o)) && !o.Refused? && AllValid(s.queues)
    requires id in s.rows && IdOk(s, id)
    requires id != At(s.queues, s.workers[w].key).entries[At(s.queues, s.workers[w].key).cursor].id
    ensures Undisturbed(s, Apply(s, Dequeue(w, o)), id)
  {
    var s' := Apply(s, Dequeue(w, o));
    forall p | Holds(s', id, p) ensures TokenAt(s', id, p) == TokenAt(s, id, p) && Holds(s, id, p) {}
  }

  lemma DequeueSettles(s: State, w: Pid, o: Outcome)
    requires Inv(s) && Enabled(s, Dequeue(w, o)) && !o.Refused?
    ensures var x := At(s.queues, s.workers[w].key).entries[At(s.queues, s.workers[w].key).cursor].id;
      x in s.rows && IdOk(Apply(s, Dequeue(w, o)), x)
  {
    var s' := Apply(s, Dequeue(w, o));
    var key := s.workers[w].key;
    var i := At(s.queues, key).cursor;
    var x := s.queues[key].entries[i].id;
    assert EntryOk(s, key, i) && IdOk(s, x);
    var from := AtStream(key, i);
    assert Holds(s, x, from);
    assert forall p :: Holds(s, x, p) ==> p == from;
    DequeueMovesToken(s, w, o, x);
    Settle(s', x, AtWorker(w));
  }

  /** The token of the entry that is read goes to the worker or is lost. */
  lemma DequeueMovesToken(s: State, w: Pid, o: Outcome, x: Uuid)
    requires Enabled(s, Dequeue(w, o)) && !o.Refused? && SingleToken(s, x)
    requires Holds(s, x, AtStream(s.workers[w].key, At(s.queues, s.workers[w].key).cursor))
    ensures forall p :: Holds(Apply(s, Dequeue(w, o)), x, p) ==> p == AtWorker(w)
  {
    var s' := Apply(s, Dequeue(w, o));
    var from := AtStream(s.workers[w].key, At(s.queues, s.workers[w].key).cursor);
    assert forall p :: Holds(s, x, p) ==> p == from;
    forall p | Holds(s', x, p) ensures p == AtWorker(w) {
      assert p == AtWorker(w) || Holds(s, x, p);
    }
  }

  lemma DequeueKeeps(s: State, w: Pid, o: Outcome)
    requires Inv(s) && Enabled(s, Dequeue(w, o))
    ensures Inv(Apply(s, Dequeue(w, o))) && Extends(s, Apply(s, Dequeue(w, o)))
  {
    if o.Refused? {
      DropsKeep(s, Apply(s, Dequeue(w, o)));
    } else {
      DequeueExtends(s, w, o);
      var s', x := Apply(s, Dequeue(w, o)), NextEntry(s, w).id;
      forall id | id in s'.rows && id !in {x} ensures Undisturbed(s, s', id) {
        assert IdOk(s, id);
        DequeueUndisturbed(s, w, o, id);
      }
      DequeueSettles(s, w, o);
      KeepAll(s, s', {x});
    }
  }

  function NextEntry(s: State, w: Pid): Notification
    requires Enabled(s, Dequeue(w, Done))
  {
    var stream := At(s.queues, s.workers[w].key);
    stream.entries[stream.cursor]
  }

  lemma DequeueExtends(s: State, w: Pid, o: Outcome)
    requires Inv(s) && Enabled(s, Dequeue(w, o)) && !o.Refused?
    ensures var s' := Apply(s, Dequeue(w, o));
      && Extends(s, s') && RowsOk(s') && QueuesOk(s') && ProcessesOk(s')
  {
    var s', key := Apply(s, Dequeue(w, o)), s.workers[w].key;
    assert EntryOk(s, key, At(s.queues, key).cursor);
    ReadExtends(s, s', key);
    ProcessesKept(s, s', {}, {}, {w});
  }

  // ---------------------------------------------------------------- fetching

  ghost predicate OnlyFetches(s: State, s': State, pid: Pid, ids: set<Uuid>) {
    && s' == s.(rows := MarkQueued(s.rows, ids), scheds := s'.scheds) && pid !in s.scheds
    && (forall id :: id in ids ==> id in s.rows)
    && (s'.scheds == s.scheds
        || s'.scheds == s.scheds[pid := Sched(map id | id in ids :: MarkQueued(s.rows, ids)[id], None)])
  }

  lemma FetchExtends(s: State, s': State, pid: Pid, ids: set<Uuid>)
    requires RowsOk(s) && QueuesOk(s) && ProcessesOk(s) && OnlyFetches(s, s', pid, ids)
    ensures Extends(s, s') && RowsOk(s') && QueuesOk(s') && ProcessesOk(s')
  {
    QueuesKept(s, s');
    ProcessesKept(s, s', {}, {pid}, {});
  }

  lemma FetchUndisturbed(s: State, pid: Pid, q: Query, ids: set<Uuid>, at: int, o: Outcome, id: Uuid)
    requires Enabled(s, Fetch(pid, q, ids, at, o)) && !o.Refused?
    requires id in s.rows && id !in ids && IdOk(s, id)
    ensures Undisturbed(s, Apply(s, Fetch(pid, q, ids, at, o)), id)
  {
    var s' := Apply(s, Fetch(pid, q, ids, at, o));
    forall p | Holds(s', id, p) ensures TokenAt(s', id, p) == TokenAt(s, id, p) && Holds(s, id, p) {}
  }

  /** A row that is due hands its token to the scheduler that fetches it. */
  lemma DueRowVouches(c: Config, q: Query, row: Notification, past: Past, at: int, now: int)
    requires q.Ready(row, at) && at <= now && RowToken(row).Some?
    requires TokenOk(c, row, RowToken(row).value, past, now) && PastOk(c, row, past, now)
    ensures var row' := row.(status := Queued);
      TokenOk(c, row', Fetched(row'), past, now) && PastOk(c, row', past, now)
  {
  }

  /** The token of a selected row goes to the scheduler or is lost. */
  lemma FetchMovesToken(s: State, pid: Pid, q: Query, ids: set<Uuid>, at: int, o: Outcome, id: Uuid)
    requires Enabled(s, Fetch(pid, q, ids, at, o)) && !o.Refused? && id in ids && SingleToken(s, id)
    ensures Holds(s, id, AtRow)
    ensures forall p :: Holds(Apply(s, Fetch(pid, q, ids, at, o)), id, p) ==> p == AtSched(pid) && o.Done?
    ensures o.Done? ==>
      TokenAt(Apply(s, Fetch(pid, q, ids, at, o)), id, AtSched(pid)) == Some(Fetched(s.rows[id].(status := Queued)))
  {
    var s' := Apply(s, Fetch(pid, q, ids, at, o));
    assert Holds(s, id, AtRow);
    assert forall p :: Holds(s, id, p) ==> p == AtRow;
    forall p | Holds(s', id, p) ensures p == AtSched(pid) && o.Done? {
      assert (p == AtSched(pid) && o.Done?) || Holds(s, id, p);
    }
  }

  lemma FetchSettles(s: State, pid: Pid, q: Query, ids: set<Uuid>, at: int, o: Outcome, id: Uuid)
    requires Enabled(s, Fetch(pid, q, ids, at, o)) && !o.Refused?
    requires id in ids && IdOk(s, id) && s.rows[id].id == id
    ensures IdOk(Apply(s, Fetch(pid, q, ids, at, o)), id)
  {
    FetchMovesToken(s, pid, q, ids, at, o, id);
    DueRowVouches(s.cfg, q, s.rows[id], PastOf(s, id), at, s.now);
    Settle(Apply(s, Fetch(pid, q, ids, at, o)), id, AtSched(pid));
  }

  lemma FetchKeeps(s: State, pid: Pid, q: Query, ids: set<Uuid>, at: int, o: Outcome)
    requires Inv(s) && Enabled(s, Fetch(pid, q, ids, at, o))
    ensures Inv(Apply(s, Fetch(pid, q, ids, at, o))) && Extends(s, Apply(s, Fetch(pid, q, ids, at, o)))
  {
    if !o.Refused? {
      var s' := Apply(s, Fetch(pid, q, ids, at, o));
      FetchExtends(s, s', pid, ids);
      forall id | id in s'.rows && id !in ids ensures Undisturbed(s, s', id) {
        assert IdOk(s, id);
        FetchUndisturbed(s, pid, q, ids, at, o, id);
      }
      forall id | id in s'.rows && id in ids ensures IdOk(s', id) {
        assert IdOk(s, id);
        FetchSettles(s, pid, q, ids, at, o, id);
      }
      KeepAll(s, s', ids);
    }
  }

  // -------------------------------------------------------------- persisting

  /** No process and no stream knows an id that is not in the table. */
  lemma UnknownElsewhere(s: State, id: Uuid, p: Place)
    requires QueuesOk(s) && ProcessesOk(s) && id !in s.rows
    ensures !Holds(s, id, p)
  {
    match p
    case AtRow =>
    case AtCreator(pid) => if pid in s.creators { assert CreatorOk(s, s.creators[pid]); }
    case AtSched(pid) => if pid in s.scheds { assert SchedOk(s, s.scheds[pid]); }
    case AtStream(key, i) =>
      if key in s.queues && i < |s.queues[key].entries| { assert EntryOk(s, key, i); }
    case AtWorker(w) => if w in s.workers { assert WorkerOk(s, s.workers[w]); }
  }

  lemma NoEntriesYet(s: State, id: Uuid, key: StreamKey)
    requires QueuesOk(s) && id !in s.rows
    ensures EntryAttempts(At(s.queues, key).entries, id) == []
  {
    forall i | 0 <= i < |At(s.queues, key).entries| ensures At(s.queues, key).entries[i].id != id {
      assert EntryOk(s, key, i);
    }
    NoEntries(At(s.queues, key).entries, id);
  }

  /** The state after the INSERT, with `c` as the call that goes on, if any. */
  ghost predicate OnlyInserts(s: State, s': State, ns: seq<Notification>, pid: Pid) {
    && Insert(s.rows, ns).Success? && pid !in s.creators
    && s' == s.(rows := Insert(s.rows, ns).value, creators := s'.creators)
    && (s'.creators == s.creators
        || s'.creators == s.creators[pid := Creator(Unscheduled(s'.rows, ns), None)])
    && forall i :: 0 <= i < |ns| ==> Fresh(ns[i]) && IsValid(ns[i]) && ns[i].status == Pending
  }

  lemma InsertExtends(s: State, s': State, ns: seq<Notification>, pid: Pid)
    requires Inv(s) && OnlyInserts(s, s', ns, pid)
    ensures Extends(s, s') && RowsOk(s') && QueuesOk(s') && ProcessesOk(s') && LogOk(s')
  {
    InsertAddsExactly(s.rows, ns);
    forall key, i | key in s'.queues && 0 <= i < |s'.queues[key].entries| ensures EntryOk(s', key, i) {
      assert EntryOk(s, key, i);
    }
    ProcessesKept(s, s', {pid}, {}, {});
  }

  lemma InsertUndisturbed(s: State, s': State, ns: seq<Notification>, pid: Pid, id: Uuid)
    requires OnlyInserts(s, s', ns, pid) && id in s.rows && IdOk(s, id)
    ensures Undisturbed(s, s', id)
  {
    InsertAddsExactly(s.rows, ns);
    assert id !in Ids(ns);
    forall p | Holds(s', id, p) ensures TokenAt(s', id, p) == TokenAt(s, id, p) && Holds(s, id, p) {}
  }

  /** Where the token of a new notification is. */
  lemma InsertPlaces(s: State, s': State, ns: seq<Notification>, pid: Pid, i: nat, p: Place)
    requires Inv(s) && OnlyInserts(s, s', ns, pid) && i < |ns|
    requires Holds(s', ns[i].id, p)
    ensures ns[i].id in s'.rows && s'.rows[ns[i].id] == ns[i] && ns[i].id !in s.rows
    ensures p == (if ns[i].scheduledAt.Some? then AtRow else AtCreator(pid))
    ensures TokenAt(s', ns[i].id, p) == Some(if ns[i].scheduledAt.Some? then Scheduled else Creating(ns[i]))
  {
    InsertAddsExactly(s.rows, ns);
    UnknownElsewhere(s, ns[i].id, p);
  }

  lemma InsertSettles(s: State, s': State, ns: seq<Notification>, pid: Pid, i: nat)
    requires Inv(s) && OnlyInserts(s, s', ns, pid) && i < |ns|
    ensures ns[i].id in s'.rows && IdOk(s', ns[i].id)
  {
    InsertAddsExactly(s.rows, ns);
    var n := ns[i];
    assert n.id !in s.rows && s'.rows[n.id] == n;
    NoEntriesYet(s, n.id, KeyOf(n));
    assert PastOf(s', n.id) == Past([], [], []);
    var home := if n.scheduledAt.Some? then AtRow else AtCreator(pid);
    forall p | Holds(s', n.id, p)
      ensures p == home && TokenAt(s', n.id, p) == Some(if n.scheduledAt.Some? then Scheduled else Creating(n))
    {
      InsertPlaces(s, s', ns, pid, i, p);
    }
    Settle(s', n.id, home);
  }

  lemma PersistKeeps(s: State, pid: Pid, ns: seq<Notification>, o: Outcome)
    requires Inv(s) && Enabled(s, Persist(pid, ns, o))
    ensures Inv(Apply(s, Persist(pid, ns, o))) && Extends(s, Apply(s, Persist(pid, ns, o)))
  {
    if !o.Refused? {
      var s' := Apply(s, Persist(pid, ns, o));
      InsertAddsExactly(s.rows, ns);
      InsertExtends(s, s', ns, pid);
      forall id | id in s'.rows && id !in Ids(ns) ensures Undisturbed(s, s', id) {
        assert IdOk(s, id);
        InsertUndisturbed(s, s', ns, pid, id);
      }
      forall id | id in s'.rows && id in Ids(ns) ensures IdOk(s', id) {
        var i :| 0 <= i < |ns| && ns[i].id == id;
        InsertSettles(s, s', ns, pid, i);
      }
      KeepAll(s, s', Ids(ns));
    }
  }

  // ------------------------------------------------------------ every step

  /** Every step of every process, whether its call works, fails or fails after
      taking effect, keeps the invariant. */
  lemma StepKeepsInvariant(s: State, step: Step)
    requires Inv(s) && Enabled(s, step)
    ensures Inv(Apply(s, step)) && Extends(s, Apply(s, step))
  {
    if ByWorker(step) { WorkerStepKeeps(s, step); } else { ApiStepKeeps(s, step); }
  }

  lemma ApiStepKeeps(s: State, step: Step)
    requires Inv(s) && Enabled(s, step) && !ByWorker(step)
    ensures Inv(Apply(s, step)) && Extends(s, Apply(s, step))
  {
    match step
    case Tick(to) => DropsKeep(s, Apply(s, step));
    case Persist(pid, ns, o) => PersistKeeps(s, pid, ns, o);
    case CreatorEnqueue(pid, id, o) => CreatorEnqueueKeeps(s, pid, id, o);
    case CreatorMark(pid, o) => CreatorMarkKeeps(s, pid, o);
    case CreatorStop(pid) => DropsKeep(s, Apply(s, step));
    case CancelCall(id, o) => CancelCallKeeps(s, id, o);
    case Fetch(pid, q, ids, at, o) => FetchKeeps(s, pid, q, ids, at, o);
    case SchedMark(pid, id, o) => SchedMarkKeeps(s, pid, id, o);
    case SchedEnqueue(pid, o) => SchedEnqueueKeeps(s, pid, o);
    case SchedStop(pid) => DropsKeep(s, Apply(s, step));
  }

  lemma WorkerStepKeeps(s: State, step: Step)
    requires Inv(s) && Enabled(s, step) && ByWorker(step)
    ensures Inv(Apply(s, step)) && Extends(s, Apply(s, step))
  {
    match step
    case Dequeue(w, o) => DequeueKeeps(s, w, o);
    case MarkProcessing(w, o) => MarkProcessingKeeps(s, w, o);
    case Ask(w, o) => AskKeeps(s, w, o);
    case WaitFails(w) => DropsKeep(s, Apply(s, step));
    case CallSend(w) => CallSendKeeps(s, w);
    case SendReturns(w, reply) => SendReturnsKeeps(s, w, reply);
    case PlanRetry(w, jitter) => PlanRetryKeeps(s, w, jitter);
    case MarkDelivered(w, o) => MarkDeliveredKeeps(s, w, o);
    case CountAttempt(w, o) => CountAttemptKeeps(s, w, o);
    case MarkFailed(w, o) => MarkFailedKeeps(s, w, o);
    case AckEntry(w, o) => AckEntryKeeps(s, w, o);
    case Abandon(w) => DropsKeep(s, Apply(s, step));
  }

  /** So it holds in every reachable state. */
  lemma {:induction false} RunKeepsInvariant(s: State, steps: seq<Step>)
    requires Inv(s) && ValidRun(s, steps)
    ensures Inv(After(s, steps)) && Extends(s, After(s, steps))
    decreases |steps|
  {
    if steps != [] {
      StepKeepsInvariant(s, steps[0]);
      RunKeepsInvariant(Apply(s, steps[0]), steps[1..]);
    }
  }
}
