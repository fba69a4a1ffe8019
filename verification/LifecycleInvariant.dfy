/** The invariant behind the lifecycle: per notification there is at most one
    delivery token, and where it is determines what the row, the message and the
    history say. Every step of every process keeps it. */
module LifecycleInvariant {
  import opened Wrappers
  import opened Entity
  import opened NotificationTable
  import opened Streams
  import opened Lifecycle
  import Backoff

  // --------------------------------------------------------------- tokens

  /** Where a token can be. */
  datatype Place =
    | AtRow
    | AtCreator(pid: Pid)
    | AtSched(pid: Pid)
    | AtStream(key: StreamKey, index: nat)
    | AtWorker(w: Pid)

  /** What a token looks like there. */
  datatype Token =
    | Scheduled                  // pending row with a send time
    | RetryDue                   // failed row with a retry time and budget left
    | Creating(n: Notification)  // inserted, not yet enqueued
    | Fetched(n: Notification)   // between a scheduler's fetch and its enqueue
    | Unread(n: Notification)    // stream entry the group has not read
    | Held(pc: WorkerPc)         // with a worker that has not recorded the outcome

  function RowToken(n: Notification): Option<Token> {
    if n.status == Pending && n.scheduledAt.Some? then Some(Scheduled)
    else if n.status == Failed && n.nextRetryAt.Some? && n.attempts < n.maxAttempts then Some(RetryDue)
    else None
  }

  predicate Holding(pc: WorkerPc) { !pc.Idle? && !pc.Acking? }

  /** The token of `id` at place `p`, if there is one. */
  function TokenAt(s: State, id: Uuid, p: Place): Option<Token> {
    match p
    case AtRow => if id in s.rows then RowToken(s.rows[id]) else None
    case AtCreator(pid) =>
      if pid in s.creators && id in s.creators[pid].todo then Some(Creating(s.creators[pid].todo[id])) else None
    case AtSched(pid) =>
      if pid in s.scheds && id in s.scheds[pid].todo then Some(Fetched(s.scheds[pid].todo[id])) else None
    case AtStream(key, i) =>
      if key in s.queues && s.queues[key].cursor <= i < |s.queues[key].entries| && s.queues[key].entries[i].id == id
      then Some(Unread(s.queues[key].entries[i])) else None
    case AtWorker(w) =>
      if w in s.workers && Holding(s.workers[w].pc) && s.workers[w].pc.msg.notification.id == id
      then Some(Held(s.workers[w].pc)) else None
  }

  ghost predicate Holds(s: State, id: Uuid, p: Place) { TokenAt(s, id, p).Some? }

  ghost predicate NoToken(s: State, id: Uuid) { forall p :: !Holds(s, id, p) }

  /** The single-token property. */
  ghost predicate SingleToken(s: State, id: Uuid) {
    forall p, q :: Holds(s, id, p) && Holds(s, id, q) ==> p == q
  }

  // ------------------------------------------- what a token vouches for

  /** The part of the history that concerns one notification. */
  datatype Past = Past(sends: seq<int>, wins: seq<string>, entries: seq<int>)

  function PastOf(s: State, id: Uuid): Past
    requires id in s.rows
  {
    Past(SendTimes(s.log, id), ProviderIds(s.log, id),
         EntryAttempts(At(s.queues, KeyOf(s.rows[id])).entries, id))
  }

  /** Fields that no statement ever changes. */
  predicate SameIdentity(a: Notification, b: Notification) {
    && a.id == b.id && a.idempotencyKey == b.idempotencyKey
    && a.channel == b.channel && a.priority == b.priority && a.message == b.message
    && a.maxAttempts == b.maxAttempts && a.scheduledAt == b.scheduledAt
  }

  /** A message or in-memory copy that agrees with the row. */
  predicate Agrees(n: Notification, row: Notification) {
    SameIdentity(n, row) && n.attempts == row.attempts
  }

  /** The shortest wait between attempt number `k` and the one before. */
  function Gap(c: Config, k: nat): int { Backoff.Shortest(k, c.baseDelay, c.maxDelay) }

  /** Every `Send` so far is at least the base delay before `t`, and the latest one as
      long as the backoff demands. */
  predicate QuietBefore(c: Config, past: Past, t: int) {
    && (forall i :: 0 <= i < |past.sends| ==> past.sends[i] + c.baseDelay <= t)
    && (past.sends != [] ==> past.sends[|past.sends| - 1] + Gap(c, |past.sends|) <= t)
  }

  /** The send time has come. */
  predicate TimeHasCome(row: Notification, now: int) {
    row.scheduledAt.Some? ==> row.scheduledAt.value <= now
  }

  /** Ready for attempt number `attempts`, which has not been made. */
  predicate Armed(row: Notification, past: Past) {
    |past.sends| == row.attempts < row.maxAttempts && past.wins == []
  }

  /** The current attempt has been made and is not yet recorded. */
  predicate Spent(row: Notification, past: Past, wins: seq<string>) {
    && |past.sends| == row.attempts + 1 <= row.maxAttempts && past.wins == wins
    && |past.entries| == row.attempts + 1
  }

  /** A retry is planned exactly when budget is left, and not too early. */
  predicate RetryPlan(c: Config, past: Past, next: Option<int>, attempts: int, maxAttempts: int) {
    && (next.Some? <==> attempts < maxAttempts)
    && (next.Some? ==> QuietBefore(c, past, next.value))
  }

  predicate TokenOk(c: Config, row: Notification, token: Token, past: Past, now: int) {
    match token
    case Scheduled => Armed(row, past) && row.attempts == 0 && |past.entries| == 0
    case RetryDue =>
      && Armed(row, past) && |past.entries| == row.attempts
      && row.nextRetryAt.Some? && QuietBefore(c, past, row.nextRetryAt.value) && TimeHasCome(row, now)
    case Creating(n) =>
      && Agrees(n, row) && Armed(row, past) && row.attempts == 0 && |past.entries| == 0
      && row.scheduledAt.None? && row.status != Failed
    case Fetched(n) =>
      && row.status != Failed && Agrees(n, row) && Armed(row, past) && |past.entries| == row.attempts
      && QuietBefore(c, past, now) && TimeHasCome(row, now)
    case Unread(n) =>
      && row.status != Failed && Agrees(n, row) && Armed(row, past) && |past.entries| == row.attempts + 1
      && QuietBefore(c, past, now) && TimeHasCome(row, now)
    case Held(pc) => Holding(pc) && HeldOk(c, row, pc, past, now)
  }

  predicate HeldOk(c: Config, row: Notification, pc: WorkerPc, past: Past, now: int)
    requires Holding(pc)
  {
    var n := pc.msg.notification;
    && SameIdentity(n, row) && row.status != Failed
    && TimeHasCome(row, now)
    && match pc
       case Sending(_) => n.attempts == row.attempts && Spent(row, past, [])
       case Accepted(_, providerId) => n.attempts == row.attempts && Spent(row, past, [providerId])
       case Rejected(_, _) => n.attempts == row.attempts && Spent(row, past, [])
       case Planned(_, _, next) =>
         && n.attempts == row.attempts && Spent(row, past, [])
         && RetryPlan(c, past, next, row.attempts + 1, row.maxAttempts)
       case Counted(_, _) =>
         && n.attempts + 1 == row.attempts <= row.maxAttempts
         && |past.sends| == row.attempts && past.wins == [] && |past.entries| == row.attempts
         && RetryPlan(c, past, row.nextRetryAt, row.attempts, row.maxAttempts)
       case _ => // Got, Waiting, Granted
         && n.attempts == row.attempts && Armed(row, past) && |past.entries| == row.attempts + 1
         && QuietBefore(c, past, now)
  }

  /** What holds of a notification with or without a token. */
  predicate PastOk(c: Config, row: Notification, past: Past, now: int) {
    && |past.sends| <= row.maxAttempts && |past.wins| <= 1 && row.attempts <= row.maxAttempts
    && (row.providerMessageId.Some? ==> past.wins == [row.providerMessageId.value])
    && (forall i, j :: 0 <= i < j < |past.sends| ==> past.sends[i] + c.baseDelay <= past.sends[j])
    && (forall i :: 0 < i < |past.sends| ==> past.sends[i - 1] + Gap(c, i) <= past.sends[i])
    && (forall i :: 0 <= i < |past.sends| ==> past.sends[i] <= now)
    && (row.scheduledAt.Some? ==> forall i :: 0 <= i < |past.sends| ==> row.scheduledAt.value <= past.sends[i])
    && (forall i :: 0 <= i < |past.entries| ==> past.entries[i] == i)
  }

  predicate RowOk(row: Notification) {
    && (row.status == Failed ==> (row.nextRetryAt.Some? <==> row.attempts < row.maxAttempts))
    && (row.status == Delivered ==> row.providerMessageId.Some?)
  }

  ghost predicate IdOk(s: State, id: Uuid)
    requires id in s.rows
  {
    var row, past := s.rows[id], PastOf(s, id);
    && RowOk(row) && PastOk(s.cfg, row, past, s.now)
    && SingleToken(s, id)
    && (forall p :: Holds(s, id, p) ==> TokenOk(s.cfg, row, TokenAt(s, id, p).value, past, s.now))
    && (row.status == Delivered ==> NoToken(s, id))
  }

  ghost predicate IdsOk(s: State) {
    forall id {:trigger IdOk(s, id)} :: id in s.rows ==> IdOk(s, id)
  }

  // ------------------------------------------------------ the bookkeeping

  /** The outcome of the delivery of `n` is in its row for good. */
  predicate Durable(t: Table, n: Notification) {
    && n.id in t
    && (t[n.id].providerMessageId.Some? || t[n.id].attempts > n.attempts)
  }

  ghost predicate RowsOk(s: State) { KeysUnique(s.rows) }

  ghost predicate EntryOk(s: State, key: StreamKey, i: nat)
    requires key in s.queues && i < |s.queues[key].entries|
  {
    var e := s.queues[key].entries[i];
    && e.id in s.rows && SameIdentity(e, s.rows[e.id]) && KeyOf(e) == key
    && (s.queues[key].Acked(i) ==> Durable(s.rows, e))
  }

  ghost predicate QueuesOk(s: State) {
    && AllValid(s.queues)
    && forall key, i {:trigger EntryOk(s, key, i)} ::
         key in s.queues && 0 <= i < |s.queues[key].entries| ==> EntryOk(s, key, i)
  }

  ghost predicate CreatorOk(s: State, c: Creator) {
    && (forall id :: id in c.todo ==> id in s.rows && c.todo[id].id == id)
    && (c.late.Some? ==> c.late.value in s.rows && s.rows[c.late.value].scheduledAt.None?)
  }

  ghost predicate SchedOk(s: State, c: Sched) {
    && (forall id :: id in c.todo ==> id in s.rows && c.todo[id].id == id)
    && (c.marked.Some? ==> c.marked.value in c.todo)
  }

  ghost predicate WorkerOk(s: State, w: Worker) {
    !w.pc.Idle? ==>
      var n := w.pc.msg.notification;
      && n.id in s.rows && SameIdentity(n, s.rows[n.id]) && KeyOf(n) == w.key
      && w.key in s.queues && w.pc.msg.streamMsgId < s.queues[w.key].cursor <= |s.queues[w.key].entries|
      && s.queues[w.key].entries[w.pc.msg.streamMsgId] == n
      && (w.pc.Acking? ==> Durable(s.rows, n))
  }

  ghost predicate ProcessesOk(s: State) {
    && (forall pid {:trigger CreatorOk(s, s.creators[pid])} :: pid in s.creators ==> CreatorOk(s, s.creators[pid]))
    && (forall pid {:trigger SchedOk(s, s.scheds[pid])} :: pid in s.scheds ==> SchedOk(s, s.scheds[pid]))
    && (forall w {:trigger WorkerOk(s, s.workers[w])} :: w in s.workers ==> WorkerOk(s, s.workers[w]))
  }

  /** Nothing has happened to ids that are not in the table. */
  ghost predicate LogOk(s: State) {
    forall id: Uuid :: id !in s.rows ==> SendTimes(s.log, id) == [] && ProviderIds(s.log, id) == []
  }

  ghost predicate Inv(s: State) {
    && s.cfg.Valid()
    && RowsOk(s) && QueuesOk(s) && ProcessesOk(s) && LogOk(s) && IdsOk(s)
  }

  lemma InitEstablishes(s: State)
    requires Init(s)
    ensures Inv(s)
  {
  }
}
