/** Every step keeps the invariant of `LifecycleInvariant`. */
module LifecycleSteps {
  import opened Wrappers
  import opened Entity
  import opened NotificationTable
  import opened Streams
  import opened Lifecycle
  import opened LifecycleInvariant
  import Backoff

  // ------------------------------------------------- parts of a step

  /** Worker `w` goes to `pc`. */
  function SetPc(s: State, w: Pid, pc: WorkerPc): State
    requires w in s.workers
  {
    s.(workers := s.workers[w := s.workers[w].(pc := pc)])
  }

  function WriteStatus(s: State, o: Outcome, id: Uuid, status: Status,
                       providerId: Option<string>, error: Option<string>): State {
    s.(rows := Written(s, o, id, status, providerId, error))
  }

  // ------------------------------------------------------ frame lemmas

  /** Equal in everything a token vouches for. */
  predicate SameStake(a: Notification, b: Notification) {
    SameIdentity(a, b) && a.attempts == b.attempts && a.nextRetryAt == b.nextRetryAt
  }

  /** Equal in everything but the status. */
  predicate SameBooks(a: Notification, b: Notification) {
    SameStake(a, b) && a.providerMessageId == b.providerMessageId
  }

  /** A notification whose token stays where it is, or is dropped. */
  ghost predicate Undisturbed(s: State, s': State, id: Uuid) {
    && id in s.rows && id in s'.rows
    && SameBooks(s.rows[id], s'.rows[id]) && RowOk(s'.rows[id])
    && (s'.rows[id].status == Failed ==> s.rows[id].status == Failed)
    && PastOf(s', id) == PastOf(s, id)
    && (forall p :: Holds(s', id, p) ==> TokenAt(s', id, p) == TokenAt(s, id, p))
    && (s'.rows[id].status == Delivered ==> NoToken(s', id))
  }

  lemma Keep(s: State, s': State, id: Uuid)
    requires s'.cfg == s.cfg && s.now <= s'.now
    requires Undisturbed(s, s', id) && IdOk(s, id)
    ensures IdOk(s', id)
  {
    forall p | Holds(s', id, p)
      ensures TokenOk(s'.cfg, s'.rows[id], TokenAt(s', id, p).value, PastOf(s', id), s'.now)
    {
      assert Holds(s, id, p);
    }
    forall p, q | Holds(s', id, p) && Holds(s', id, q) ensures p == q {
      assert Holds(s, id, p) && Holds(s, id, q);
    }
  }

  /** All notifications but those in `except` are undisturbed. */
  lemma KeepAll(s: State, s': State, except: set<Uuid>)
    requires IdsOk(s) && s'.cfg == s.cfg && s.now <= s'.now
    requires forall id :: id in s'.rows && id !in except ==> Undisturbed(s, s', id)
    requires forall id :: id in s'.rows && id in except ==> IdOk(s', id)
    ensures IdsOk(s')
  {
    forall id | id in s'.rows ensures IdOk(s', id) {
      if id !in except {
        assert IdOk(s, id);
        Keep(s, s', id);
      }
    }
  }

  /** A notification whose only token, if any, is now at `q`. */
  lemma Settle(s: State, id: Uuid, q: Place)
    requires id in s.rows
    requires RowOk(s.rows[id]) && PastOk(s.cfg, s.rows[id], PastOf(s, id), s.now)
    requires forall p :: Holds(s, id, p) ==> p == q
    requires Holds(s, id, q) ==> TokenOk(s.cfg, s.rows[id], TokenAt(s, id, q).value, PastOf(s, id), s.now)
    requires Holds(s, id, q) ==> s.rows[id].status != Delivered
    ensures IdOk(s, id)
  {
  }

  /** No row is deleted, loses its identity, an attempt or its provider's answer. */
  ghost predicate RowsGrow(t: Table, t': Table) {
    forall id :: id in t ==>
      && id in t' && SameIdentity(t[id], t'[id])
      && t[id].attempts <= t'[id].attempts
      && (t[id].providerMessageId.Some? ==> t'[id].providerMessageId == t[id].providerMessageId)
  }

  /** Streams are append-only and their group never goes back. */
  ghost predicate QueuesGrow(q: Queues, q': Queues) {
    forall key :: key in q ==>
      && key in q' && q[key].cursor <= q'[key].cursor <= |q'[key].entries|
      && q[key].entries <= q'[key].entries
  }

  /** Rows and streams only grow. */
  ghost predicate Extends(s: State, s': State) {
    s'.cfg == s.cfg && s.now <= s'.now && RowsGrow(s.rows, s'.rows) && QueuesGrow(s.queues, s'.queues)
  }

  lemma DurableKept(s: State, s': State, n: Notification)
    requires Extends(s, s') && Durable(s.rows, n)
    ensures Durable(s'.rows, n)
  {
  }

  lemma WorkerKept(s: State, s': State, w: Worker)
    requires Extends(s, s') && WorkerOk(s, w)
    ensures WorkerOk(s', w)
  {
    if w.pc.Acking? { DurableKept(s, s', w.pc.msg.notification); }
  }

  lemma CreatorKept(s: State, s': State, c: Creator)
    requires Extends(s, s') && CreatorOk(s, c)
    ensures CreatorOk(s', c)
  {
    if c.late.Some? {
      var id := c.late.value;
      assert id in s.rows;
    }
  }

  lemma SchedKept(s: State, s': State, c: Sched)
    requires Extends(s, s') && SchedOk(s, c)
    ensures SchedOk(s', c)
  {
  }

  /** All processes but those named are as they were. */
  lemma ProcessesKept(s: State, s': State, creator: set<Pid>, sched: set<Pid>, worker: set<Pid>)
    requires ProcessesOk(s) && Extends(s, s')
    requires forall pid :: pid in s'.creators ==>
               pid in creator || (pid in s.creators && s'.creators[pid] == s.creators[pid])
    requires forall pid :: pid in s'.scheds ==> pid in sched || (pid in s.scheds && s'.scheds[pid] == s.scheds[pid])
    requires forall w :: w in s'.workers ==> w in worker || (w in s.workers && s'.workers[w] == s.workers[w])
    requires forall pid :: pid in creator && pid in s'.creators ==> CreatorOk(s', s'.creators[pid])
    requires forall pid :: pid in sched && pid in s'.scheds ==> SchedOk(s', s'.scheds[pid])
    requires forall w :: w in worker && w in s'.workers ==> WorkerOk(s', s'.workers[w])
    ensures ProcessesOk(s')
  {
    forall pid | pid in s'.creators ensures CreatorOk(s', s'.creators[pid]) {
      if pid !in creator { CreatorKept(s, s', s.creators[pid]); }
    }
    forall pid | pid in s'.scheds ensures SchedOk(s', s'.scheds[pid]) {
      if pid !in sched { SchedKept(s, s', s.scheds[pid]); }
    }
    forall w | w in s'.workers ensures WorkerOk(s', s'.workers[w]) {
      if w !in worker { WorkerKept(s, s', s.workers[w]); }
    }
  }

  /** Entries that are not newly acknowledged stay fine. */
  lemma QueuesKept(s: State, s': State)
    requires QueuesOk(s) && Extends(s, s') && s'.queues == s.queues
    ensures QueuesOk(s')
  {
    forall key, i | key in s'.queues && 0 <= i < |s'.queues[key].entries| ensures EntryOk(s', key, i) {
      assert EntryOk(s, key, i);
      var e := s.queues[key].entries[i];
      if s.queues[key].Acked(i) { DurableKept(s, s', e); }
    }
  }

  lemma {:induction false} NoEntries(entries: seq<Notification>, id: Uuid)
    requires forall i :: 0 <= i < |entries| ==> entries[i].id != id
    ensures EntryAttempts(entries, id) == []
    decreases |entries|
  {
    if entries != [] { NoEntries(entries[..|entries| - 1], id); }
  }

  // ------------------------------------------- steps that touch no row

  ghost predicate Shrunk(a: map<Uuid, Notification>, b: map<Uuid, Notification>) {
    forall id :: id in a ==> id in b && a[id] == b[id]
  }

  /** Only the clock and the process tables may differ, and no process holds
      anything it did not hold before. */
  ghost predicate OnlyDrops(s: State, s': State) {
    && s'.cfg == s.cfg && s.now <= s'.now && s'.rows == s.rows && s'.queues == s.queues && s'.log == s.log
    && (forall pid :: pid in s'.creators ==>
          && pid in s.creators && Shrunk(s'.creators[pid].todo, s.creators[pid].todo)
          && (s'.creators[pid].late.Some? ==> s'.creators[pid].late == s.creators[pid].late))
    && (forall pid :: pid in s'.scheds ==>
          && pid in s.scheds
          && (s'.scheds[pid] == s.scheds[pid]
              || (&& Shrunk(s'.scheds[pid].todo, s.scheds[pid].todo)
                  && (s'.scheds[pid].marked.Some? ==> s'.scheds[pid].marked.value in s'.scheds[pid].todo))))
    && (forall w :: w in s'.workers ==> w in s.workers && (s'.workers[w] == s.workers[w] || s'.workers[w].pc == Idle))
  }

  lemma DropsUndisturbed(s: State, s': State, id: Uuid)
    requires OnlyDrops(s, s') && id in s.rows && IdOk(s, id)
    ensures Undisturbed(s, s', id)
  {
    forall p | Holds(s', id, p) ensures TokenAt(s', id, p) == TokenAt(s, id, p) && Holds(s, id, p) {}
  }

  lemma DropsProcesses(s: State, s': State)
    requires ProcessesOk(s) && OnlyDrops(s, s') && Extends(s, s')
    ensures ProcessesOk(s')
  {
    forall pid | pid in s'.creators ensures CreatorOk(s', s'.creators[pid]) {
      assert CreatorOk(s, s.creators[pid]);
    }
    forall pid | pid in s'.scheds ensures SchedOk(s', s'.scheds[pid]) {
      assert SchedOk(s, s.scheds[pid]);
    }
    forall w | w in s'.workers ensures WorkerOk(s', s'.workers[w]) {
      if s'.workers[w] == s.workers[w] { WorkerKept(s, s', s.workers[w]); }
    }
  }

  lemma DropsKeep(s: State, s': State)
    requires Inv(s) && OnlyDrops(s, s')
    ensures Inv(s') && Extends(s, s')
  {
    QueuesKept(s, s');
    DropsProcesses(s, s');
    forall id | id in s'.rows ensures Undisturbed(s, s', id) {
      assert IdOk(s, id);
      DropsUndisturbed(s, s', id);
    }
    KeepAll(s, s', {});
  }

  /** What the invariant says of the notification a worker is busy with. */
  lemma HeldBy(s: State, w: Pid)
    requires Inv(s) && w in s.workers && Holding(Pc(s, w))
    ensures WorkerOk(s, s.workers[w])
    ensures var id := Pc(s, w).msg.notification.id;
      && id in s.rows && s.rows[id].id == id && IdOk(s, id) && Holds(s, id, AtWorker(w))
      && HeldOk(s.cfg, s.rows[id], Pc(s, w), PastOf(s, id), s.now)
      && s.rows[id].status != Delivered && !Holds(s, id, AtRow)
  {
    var id := Pc(s, w).msg.notification.id;
    assert WorkerOk(s, s.workers[w]);
    assert IdOk(s, id);
    assert Holds(s, id, AtWorker(w));
    assert forall p :: Holds(s, id, p) ==> p == AtWorker(w);
  }

  /** Only worker `w` has moved, the buckets may differ, and the history has grown
      by events about the notification it is busy with. */
  ghost predicate OnlyAdvances(s: State, s': State, w: Pid, pc: WorkerPc) {
    && w in s.workers && Holding(Pc(s, w)) && Holding(pc) && pc.msg == Pc(s, w).msg
    && s' == SetPc(s, w, pc).(buckets := s'.buckets, log := s'.log)
    && forall y: Uuid :: y != pc.msg.notification.id ==>
         SendTimes(s'.log, y) == SendTimes(s.log, y) && ProviderIds(s'.log, y) == ProviderIds(s.log, y)
  }

  lemma AdvanceUndisturbed(s: State, s': State, w: Pid, pc: WorkerPc, id: Uuid)
    requires OnlyAdvances(s, s', w, pc) && id in s.rows && IdOk(s, id)
    requires id != pc.msg.notification.id
    ensures Undisturbed(s, s', id)
  {
    forall p ensures TokenAt(s', id, p) == TokenAt(s, id, p) && Holds(s', id, p) == Holds(s, id, p) {}
  }

  lemma AdvanceSettles(s: State, s': State, w: Pid, pc: WorkerPc)
    requires OnlyAdvances(s, s', w, pc)
    requires var x := pc.msg.notification.id;
      && x in s.rows && s.rows[x].id == x && IdOk(s, x) && s.rows[x].status != Delivered
      && PastOk(s.cfg, s.rows[x], PastOf(s', x), s.now)
      && HeldOk(s.cfg, s.rows[x], pc, PastOf(s', x), s.now)
    ensures IdOk(s', pc.msg.notification.id)
  {
    var x := pc.msg.notification.id;
    assert Holds(s, x, AtWorker(w));
    assert forall p :: Holds(s, x, p) ==> p == AtWorker(w);
    forall p | Holds(s', x, p) ensures p == AtWorker(w) {
      assert p == AtWorker(w) || Holds(s, x, p);
    }
    Settle(s', x, AtWorker(w));
  }

  /** The token stays with the worker, in a new phase. */
  lemma AdvanceKeeps(s: State, s': State, w: Pid, pc: WorkerPc)
    requires Inv(s) && OnlyAdvances(s, s', w, pc)
    requires pc.msg.notification.id in s.rows ==>
      var row := s.rows[pc.msg.notification.id];
      && PastOk(s.cfg, row, PastOf(s', pc.msg.notification.id), s.now)
      && HeldOk(s.cfg, row, pc, PastOf(s', pc.msg.notification.id), s.now)
    ensures Inv(s') && Extends(s, s')
  {
    var x := pc.msg.notification.id;
    HeldBy(s, w);
    QueuesKept(s, s');
    ProcessesKept(s, s', {}, {}, {w});
    forall id | id in s'.rows && id !in {x} ensures Undisturbed(s, s', id) {
      assert IdOk(s, id);
      AdvanceUndisturbed(s, s', w, pc, id);
    }
    AdvanceSettles(s, s', w, pc);
    KeepAll(s, s', {x});
  }

  lemma AskAdvances(s: State, w: Pid)
    requires Enabled(s, Ask(w, Done))
    ensures var s' := Apply(s, Ask(w, Done));
      && w in s'.workers && OnlyAdvances(s, s', w, Pc(s', w))
      && (Pc(s', w).Waiting? || Pc(s', w).Granted?) && Pc(s', w).msg == Pc(s, w).msg
      && forall id: Uuid ::
           SendTimes(s'.log, id) == SendTimes(s.log, id) && ProviderIds(s'.log, id) == ProviderIds(s.log, id)
  {
    var s' := Apply(s, Ask(w, Done));
    assert s'.log.Then? && s'.log.past == s.log && s'.log.last.Asked?;
  }

  lemma SendReturnsAdvances(s: State, w: Pid, reply: Result<string, string>)
    requires Enabled(s, SendReturns(w, reply))
    ensures var s', msg := Apply(s, SendReturns(w, reply)), Pc(s, w).msg;
      && w in s'.workers && OnlyAdvances(s, s', w, Pc(s', w)) && Pc(s', w).msg == msg
      && (if reply.Success? then Pc(s', w) == Accepted(msg, reply.value) else Pc(s', w) == Rejected(msg, reply.error))
      && SendTimes(s'.log, msg.notification.id) == SendTimes(s.log, msg.notification.id)
      && ProviderIds(s'.log, msg.notification.id)
         == ProviderIds(s.log, msg.notification.id) + (if reply.Success? then [reply.value] else [])
  {
  }

  lemma CallSendAdvances(s: State, w: Pid)
    requires Enabled(s, CallSend(w))
    ensures var s', id := Apply(s, CallSend(w)), Pc(s, w).msg.notification.id;
      && w in s'.workers && OnlyAdvances(s, s', w, Pc(s', w)) && Pc(s', w) == Sending(Pc(s, w).msg)
      && SendTimes(s'.log, id) == SendTimes(s.log, id) + [s.now] && ProviderIds(s'.log, id) == ProviderIds(s.log, id)
  {
  }

  /** The call goes into the history; it is timely because the token was. */
  lemma SendSpends(s: State, s': State, w: Pid)
    requires w in s.workers && Pc(s, w).Granted? && s'.queues == s.queues && s'.rows == s.rows
    requires var id := Pc(s, w).msg.notification.id;
      && id in s.rows && IdOk(s, id) && Holds(s, id, AtWorker(w))
      && SendTimes(s'.log, id) == SendTimes(s.log, id) + [s.now] && ProviderIds(s'.log, id) == ProviderIds(s.log, id)
    ensures var msg := Pc(s, w).msg;
      var row := s.rows[msg.notification.id];
      && PastOk(s.cfg, row, PastOf(s', msg.notification.id), s.now)
      && HeldOk(s.cfg, row, Sending(msg), PastOf(s', msg.notification.id), s.now)
  {
    var id := Pc(s, w).msg.notification.id;
    assert TokenOk(s.cfg, s.rows[id], TokenAt(s, id, AtWorker(w)).value, PastOf(s, id), s.now);
  }

  lemma AskAnswered(s: State, w: Pid)
    requires Inv(s) && Enabled(s, Ask(w, Done))
    ensures Inv(Apply(s, Ask(w, Done))) && Extends(s, Apply(s, Ask(w, Done)))
  {
    HeldBy(s, w);
    var s' := Apply(s, Ask(w, Done));
    AskAdvances(s, w);
    AdvanceKeeps(s, s', w, Pc(s', w));
  }

  /** A lost answer is one that the worker drops with its message. */
  lemma AskLostDrops(s: State, w: Pid)
    requires Enabled(s, Ask(w, Done))
    ensures OnlyDrops(Apply(s, Ask(w, Done)), Apply(s, Ask(w, Lost)))
  {
  }

  lemma AskKeeps(s: State, w: Pid, o: Outcome)
    requires Inv(s) && Enabled(s, Ask(w, o))
    ensures Inv(Apply(s, Ask(w, o))) && Extends(s, Apply(s, Ask(w, o)))
  {
    if o.Refused? {
      DropsKeep(s, Apply(s, Ask(w, o)));
    } else {
      AskAnswered(s, w);
      if o.Lost? {
        AskLostDrops(s, w);
        DropsKeep(Apply(s, Ask(w, Done)), Apply(s, Ask(w, Lost)));
      }
    }
  }

  lemma CallSendKeeps(s: State, w: Pid)
    requires Inv(s) && Enabled(s, CallSend(w))
    ensures Inv(Apply(s, CallSend(w))) && Extends(s, Apply(s, CallSend(w)))
  {
    HeldBy(s, w);
    var s' := Apply(s, CallSend(w));
    CallSendAdvances(s, w);
    SendSpends(s, s', w);
    AdvanceKeeps(s, s', w, Pc(s', w));
  }

  /** The reply goes into the history. */
  lemma ReplyVouches(s: State, s': State, w: Pid, reply: Result<string, string>, pc: WorkerPc)
    requires w in s.workers && Pc(s, w).Sending? && s'.queues == s.queues && s'.rows == s.rows
    requires pc == if reply.Success? then Accepted(Pc(s, w).msg, reply.value) else Rejected(Pc(s, w).msg, reply.error)
    requires var id := Pc(s, w).msg.notification.id;
      && id in s.rows && IdOk(s, id) && HeldOk(s.cfg, s.rows[id], Pc(s, w), PastOf(s, id), s.now)
      && SendTimes(s'.log, id) == SendTimes(s.log, id)
      && ProviderIds(s'.log, id) == ProviderIds(s.log, id) + (if reply.Success? then [reply.value] else [])
    ensures var id := Pc(s, w).msg.notification.id;
      && PastOk(s.cfg, s.rows[id], PastOf(s', id), s.now)
      && HeldOk(s.cfg, s.rows[id], pc, PastOf(s', id), s.now)
  {
  }

  lemma SendReturnsKeeps(s: State, w: Pid, reply: Result<string, string>)
    requires Inv(s) && Enabled(s, SendReturns(w, reply))
    ensures Inv(Apply(s, SendReturns(w, reply))) && Extends(s, Apply(s, SendReturns(w, reply)))
  {
    HeldBy(s, w);
    var s' := Apply(s, SendReturns(w, reply));
    SendReturnsAdvances(s, w, reply);
    ReplyVouches(s, s', w, reply, Pc(s', w));
    AdvanceKeeps(s, s', w, Pc(s', w));
  }

  /** The planned retry leaves the backoff after the attempt that was just made. */
  lemma PlanVouches(c: Config, row: Notification, pc: WorkerPc, past: Past, now: int, jitter: real, next: Option<int>)
    requires c.Valid() && Backoff.IsJitter(jitter) && pc.Rejected?
    requires HeldOk(c, row, pc, past, now) && PastOk(c, row, past, now)
    requires var n := pc.msg.notification;
      next == if n.attempts + 1 < n.maxAttempts
              then Some(now + Backoff.Delay(n.attempts + 1, c.baseDelay, c.maxDelay, jitter)) else None
    ensures HeldOk(c, row, Planned(pc.msg, pc.error, next), past, now)
  {
    Backoff.DelayRange(pc.msg.notification.attempts + 1, c.baseDelay, c.maxDelay, jitter);
    Backoff.ShortestIsLower(pc.msg.notification.attempts + 1, c.baseDelay, c.maxDelay, jitter);
  }

  lemma PlanRetryAdvances(s: State, w: Pid, jitter: real)
    requires Enabled(s, PlanRetry(w, jitter))
    ensures var s', pc := Apply(s, PlanRetry(w, jitter)), Pc(s, w);
      OnlyAdvances(s, s', w, Planned(pc.msg, pc.error, RetryTime(s, pc.msg.notification, jitter))) && s'.log == s.log
  {
  }

  lemma PlanRetryKeeps(s: State, w: Pid, jitter: real)
    requires Inv(s) && Enabled(s, PlanRetry(w, jitter))
    ensures Inv(Apply(s, PlanRetry(w, jitter))) && Extends(s, Apply(s, PlanRetry(w, jitter)))
  {
    HeldBy(s, w);
    var s', pc := Apply(s, PlanRetry(w, jitter)), Pc(s, w);
    var id, next := pc.msg.notification.id, RetryTime(s, pc.msg.notification, jitter);
    PlanRetryAdvances(s, w, jitter);
    PlanVouches(s.cfg, s.rows[id], pc, PastOf(s, id), s.now, jitter, next);
    AdvanceKeeps(s, s', w, Planned(pc.msg, pc.error, next));
  }

  // ------------------------------------------------------ status writes

  /** One row's status is overwritten with something that is no row token. */
  ghost predicate OnlyWrites(s: State, s': State, x: Uuid) {
    && s' == s.(rows := s'.rows) && s'.rows.Keys == s.rows.Keys
    && (forall y :: y in s.rows && y != x ==> s'.rows[y] == s.rows[y])
    && (x in s.rows ==>
          && SameBooks(s.rows[x], s'.rows[x])
          && (s'.rows[x] == s.rows[x]
              || s'.rows[x].status == Queued || s'.rows[x].status == Processing || s'.rows[x].status == Cancelled))
  }

  lemma WriteUndisturbed(s: State, s': State, x: Uuid, id: Uuid)
    requires OnlyWrites(s, s', x) && id in s.rows && IdOk(s, id)
    ensures Undisturbed(s, s', id)
  {
    forall p | Holds(s', id, p) ensures TokenAt(s', id, p) == TokenAt(s, id, p) && Holds(s, id, p) {}
  }

  lemma WriteQueues(s: State, s': State, x: Uuid)
    requires QueuesOk(s) && OnlyWrites(s, s', x)
    ensures QueuesOk(s') && Extends(s, s')
  {
    QueuesKept(s, s');
  }

  lemma WriteKeeps(s: State, s': State, x: Uuid)
    requires Inv(s) && OnlyWrites(s, s', x)
    ensures Inv(s') && Extends(s, s')
  {
    WriteQueues(s, s', x);
    ProcessesKept(s, s', {}, {}, {});
    forall id | id in s'.rows ensures Undisturbed(s, s', id) {
      assert IdOk(s, id);
      WriteUndisturbed(s, s', x, id);
    }
    KeepAll(s, s', {});
  }

  lemma CreatorMarkKeeps(s: State, pid: Pid, o: Outcome)
    requires Inv(s) && Enabled(s, CreatorMark(pid, o))
    ensures Inv(Apply(s, CreatorMark(pid, o))) && Extends(s, Apply(s, CreatorMark(pid, o)))
  {
    var id := s.creators[pid].late.value;
    var s1 := WriteStatus(s, o, id, Queued, None, None);
    WriteKeeps(s, s1, id);
    CreatorMarkDrops(s, s1, pid, o);
    DropsKeep(s1, Apply(s, CreatorMark(pid, o)));
  }

  lemma CreatorMarkDrops(s: State, s1: State, pid: Pid, o: Outcome)
    requires Enabled(s, CreatorMark(pid, o))
    requires s1 == WriteStatus(s, o, s.creators[pid].late.value, Queued, None, None)
    ensures OnlyDrops(s1, Apply(s, CreatorMark(pid, o)))
  {
  }

  lemma CancelCallKeeps(s: State, id: Uuid, o: Outcome)
    requires Inv(s)
    ensures Inv(Apply(s, CancelCall(id, o))) && Extends(s, Apply(s, CancelCall(id, o)))
  {
    WriteKeeps(s, Apply(s, CancelCall(id, o)), id);
  }

  lemma SchedShrinks(s: State, pid: Pid, c: Sched)
    requires Inv(s) && pid in s.scheds && Shrunk(c.todo, s.scheds[pid].todo)
    requires c.marked.Some? ==> c.marked.value in c.todo
    ensures Inv(s.(scheds := s.scheds[pid := c])) && Extends(s, s.(scheds := s.scheds[pid := c]))
  {
    DropsKeep(s, s.(scheds := s.scheds[pid := c]));
  }

  lemma SchedMarkKeeps(s: State, pid: Pid, id: Uuid, o: Outcome)
    requires Inv(s) && Enabled(s, SchedMark(pid, id, o))
    ensures Inv(Apply(s, SchedMark(pid, id, o))) && Extends(s, Apply(s, SchedMark(pid, id, o)))
  {
    var s1 := WriteStatus(s, o, id, Queued, None, None);
    WriteKeeps(s, s1, id);
    var c := s.scheds[pid];
    SchedShrinks(s1, pid, if o.Done? then c.(marked := Some(id)) else c.(todo := Without(c.todo, id)));
  }

  lemma StartWaiting(s: State, w: Pid)
    requires Inv(s) && w in s.workers && Pc(s, w).Got?
    ensures Inv(SetPc(s, w, Waiting(Pc(s, w).msg))) && Extends(s, SetPc(s, w, Waiting(Pc(s, w).msg)))
  {
    HeldBy(s, w);
    var pc := Waiting(Pc(s, w).msg);
    AdvanceKeeps(s, SetPc(s, w, pc), w, pc);
  }

  lemma MarkProcessingKeeps(s: State, w: Pid, o: Outcome)
    requires Inv(s) && Enabled(s, MarkProcessing(w, o))
    ensures Inv(Apply(s, MarkProcessing(w, o))) && Extends(s, Apply(s, MarkProcessing(w, o)))
  {
    var id := Pc(s, w).msg.notification.id;
    var s1 := WriteStatus(s, o, id, Processing, None, None);
    ProcessingKeeps(s, s1, o, id);
    if o.Done? {
      StartWaiting(s1, w);
    } else {
      DropsKeep(s1, SetPc(s1, w, Idle));
    }
  }

  lemma ProcessingKeeps(s: State, s1: State, o: Outcome, id: Uuid)
    requires Inv(s) && s1 == WriteStatus(s, o, id, Processing, None, None)
    ensures Inv(s1) && Extends(s, s1)
  {
    WriteKeeps(s, s1, id);
  }

  lemma AckingUndisturbed(s: State, w: Pid, msg: QueueMessage, id: Uuid)
    requires w in s.workers && Pc(s, w) == Idle && id in s.rows && IdOk(s, id)
    ensures Undisturbed(s, SetPc(s, w, Acking(msg)), id)
  {
    var s' := SetPc(s, w, Acking(msg));
    forall p ensures TokenAt(s', id, p) == TokenAt(s, id, p) && Holds(s', id, p) == Holds(s, id, p) {}
  }

  /** A worker that holds nothing takes note that it still has to acknowledge. */
  lemma IdleToAcking(s: State, w: Pid, msg: QueueMessage)
    requires Inv(s) && w in s.workers && Pc(s, w) == Idle
    requires WorkerOk(s, s.workers[w].(pc := Acking(msg)))
    ensures Inv(SetPc(s, w, Acking(msg))) && Extends(s, SetPc(s, w, Acking(msg)))
  {
    var s' := SetPc(s, w, Acking(msg));
    QueuesKept(s, s');
    WorkerKept(s, s', s.workers[w].(pc := Acking(msg)));
    ProcessesKept(s, s', {}, {}, {w});
    forall id | id in s'.rows ensures Undisturbed(s, s', id) {
      assert IdOk(s, id);
      AckingUndisturbed(s, w, msg, id);
    }
    KeepAll(s, s', {});
  }

  /** Giving up a token leaves none. */
  lemma GiveUp(s: State, w: Pid)
    requires Inv(s) && w in s.workers && Holding(Pc(s, w))
    ensures Inv(SetPc(s, w, Idle)) && Extends(s, SetPc(s, w, Idle))
    ensures NoToken(SetPc(s, w, Idle), Pc(s, w).msg.notification.id)
  {
    HeldBy(s, w);
    var id := Pc(s, w).msg.notification.id;
    var s1 := SetPc(s, w, Idle);
    DropsKeep(s, s1);
    assert forall p :: Holds(s, id, p) ==> p == AtWorker(w);
    forall p ensures !Holds(s1, id, p) {
      assert Holds(s1, id, p) ==> Holds(s, id, p);
    }
  }

  /** The provider's answer goes into a row that no token is left for. */
  ghost predicate OnlyDelivers(s: State, s': State, x: Uuid, providerId: string) {
    && x in s.rows && NoToken(s, x) && PastOf(s, x).wins == [providerId]
    && s' == WriteStatus(s, Done, x, Delivered, Some(providerId), None)
  }

  lemma DeliveryUndisturbed(s: State, s': State, x: Uuid, providerId: string, id: Uuid)
    requires OnlyDelivers(s, s', x, providerId) && id in s.rows && id != x && IdOk(s, id)
    ensures Undisturbed(s, s', id)
  {
    forall p | Holds(s', id, p) ensures TokenAt(s', id, p) == TokenAt(s, id, p) && Holds(s, id, p) {}
  }

  lemma DeliverySettles(s: State, s': State, x: Uuid, providerId: string)
    requires OnlyDelivers(s, s', x, providerId) && IdOk(s, x) && s.rows[x].id == x
    ensures IdOk(s', x)
  {
    forall p ensures !Holds(s', x, p) { assert !Holds(s, x, p); }
    assert PastOf(s', x) == PastOf(s, x);
    Settle(s', x, AtRow);
  }

  lemma DeliveryExtends(s: State, s': State, x: Uuid, providerId: string)
    requires RowsOk(s) && QueuesOk(s) && OnlyDelivers(s, s', x, providerId) && IdOk(s, x)
    ensures Extends(s, s') && RowsOk(s')
  {
    SameKeysUnique(s.rows, s'.rows);
  }

  lemma DeliveryKeeps(s: State, s': State, x: Uuid, providerId: string)
    requires Inv(s) && OnlyDelivers(s, s', x, providerId)
    ensures Inv(s') && Extends(s, s')
  {
    assert IdOk(s, x);
    DeliveryExtends(s, s', x, providerId);
    QueuesKept(s, s');
    ProcessesKept(s, s', {}, {}, {});
    forall id | id in s'.rows && id !in {x} ensures Undisturbed(s, s', id) {
      assert IdOk(s, id);
      DeliveryUndisturbed(s, s', x, providerId, id);
    }
    DeliverySettles(s, s', x, providerId);
    KeepAll(s, s', {x});
  }

  lemma MarkDeliveredTakesEffect(s: State, w: Pid, s2: State)
    requires Inv(s) && w in s.workers && Pc(s, w).Accepted?
    requires s2 == WriteStatus(SetPc(s, w, Idle), Done, Pc(s, w).msg.notification.id, Delivered,
                               Some(Pc(s, w).providerId), None)
    ensures Inv(s2) && Extends(s, s2)
  {
    HeldBy(s, w);
    GiveUp(s, w);
    DeliveryKeeps(SetPc(s, w, Idle), s2, Pc(s, w).msg.notification.id, Pc(s, w).providerId);
  }

  lemma DeliveredIsDurable(s: State, s2: State, w: Pid)
    requires Extends(s, s2) && w in s.workers && Pc(s, w).Accepted? && WorkerOk(s, s.workers[w])
    requires s2.rows == Written(s, Done, Pc(s, w).msg.notification.id, Delivered, Some(Pc(s, w).providerId), None)
    ensures WorkerOk(s2, s.workers[w].(pc := Acking(Pc(s, w).msg)))
  {
    WorkerKept(s, s2, s.workers[w]);
  }

  lemma MarkDeliveredDone(s: State, w: Pid)
    requires Inv(s) && Enabled(s, MarkDelivered(w, Done))
    ensures Inv(Apply(s, MarkDelivered(w, Done))) && Extends(s, Apply(s, MarkDelivered(w, Done)))
  {
    var pc := Pc(s, w);
    assert WorkerOk(s, s.workers[w]);
    var s2 := WriteStatus(SetPc(s, w, Idle), Done, pc.msg.notification.id, Delivered, Some(pc.providerId), None);
    MarkDeliveredTakesEffect(s, w, s2);
    DeliveredIsDurable(s, s2, w);
    assert s2.workers[w] == s.workers[w].(pc := Idle);
    IdleToAcking(s2, w, pc.msg);
    assert Apply(s, MarkDelivered(w, Done)) == SetPc(s2, w, Acking(pc.msg));
  }

  lemma MarkDeliveredKeeps(s: State, w: Pid, o: Outcome)
    requires Inv(s) && Enabled(s, MarkDelivered(w, o))
    ensures Inv(Apply(s, MarkDelivered(w, o))) && Extends(s, Apply(s, MarkDelivered(w, o)))
  {
    match o
    case Done => MarkDeliveredDone(s, w);
    case Lost => MarkDeliveredTakesEffect(s, w, Apply(s, MarkDelivered(w, o)));
    case Refused => DropsKeep(s, Apply(s, MarkDelivered(w, o)));
  }
}
