/** The delivery lifecycle as a state machine: API calls, the table, the streams,
    the workers and the schedulers, each repository, queue or limiter call being
    one atomic step. Any two processes may interleave between calls and any call
    may fail. */
module Lifecycle {
  import opened Wrappers
  import opened Entity
  import opened NotificationTable
  import opened Streams
  import TokenBucket
  import Backoff

  datatype Config = Config(limits: TokenBucket.Limits, baseDelay: int, maxDelay: int) {
    predicate Valid() { limits.Valid() && baseDelay >= 0 }
  }

  /** Identifies a worker goroutine, an API call, or a scheduler tick. */
  type Pid = int

  /** How a call ends: it works; it takes effect but the caller sees an error; or
      it fails without effect. */
  datatype Outcome = Done | Lost | Refused

  /** Where a worker is inside `runWorker` and `Process`. */
  datatype WorkerPc =
    | Idle
    | Got(msg: QueueMessage)                                             // dequeued
    | Waiting(msg: QueueMessage)                                         // in the limiter
    | Granted(msg: QueueMessage)                                         // token taken
    | Sending(msg: QueueMessage)                                         // in the provider call
    | Accepted(msg: QueueMessage, providerId: string)                    // provider said yes
    | Rejected(msg: QueueMessage, error: string)                         // provider said no
    | Planned(msg: QueueMessage, error: string, next: Option<int>)       // retry time computed
    | Counted(msg: QueueMessage, error: string)                          // attempt recorded
    | Acking(msg: QueueMessage)                                          // outcome recorded

  datatype Worker = Worker(key: StreamKey, pc: WorkerPc)

  /** A `Create` or `CreateBatch` call after its INSERT: the unscheduled
      notifications it has yet to enqueue, and the one it has enqueued but not yet
      marked as queued. */
  datatype Creator = Creator(todo: map<Uuid, Notification>, late: Option<Uuid>)

  /** A scheduler tick after its fetch: what it has yet to enqueue, and the one it
      has already marked as queued. */
  datatype Sched = Sched(todo: map<Uuid, Notification>, marked: Option<Uuid>)

  datatype Event =
    | Asked(worker: Pid, channel: Channel, atMs: int, allowed: bool)
    | SendCalled(worker: Pid, id: Uuid, channel: Channel, at: int)
    | SendReturned(worker: Pid, id: Uuid, reply: Result<string, string>)

  /** What has happened, latest last. No step ever reads it. */
  datatype History = Start | Then(past: History, last: Event)

  datatype State = State(
    cfg: Config,
    now: int,
    rows: Table,
    queues: Queues,
    buckets: map<Channel, TokenBucket.Bucket>,
    workers: map<Pid, Worker>,
    creators: map<Pid, Creator>,
    scheds: map<Pid, Sched>,
    log: History
  )

  predicate Init(s: State) {
    && s.cfg.Valid()
    && s.rows == map[] && s.queues == map[] && s.buckets == map[]
    && s.creators == map[] && s.scheds == map[] && s.log == Start
    && forall w :: w in s.workers ==> s.workers[w].pc == Idle
  }

  datatype Step =
    | Tick(to: int)
    // API calls
    | Persist(pid: Pid, ns: seq<Notification>, o: Outcome)
    | CreatorEnqueue(pid: Pid, id: Uuid, o: Outcome)
    | CreatorMark(pid: Pid, o: Outcome)
    | CreatorStop(pid: Pid)
    | CancelCall(id: Uuid, o: Outcome)
    // schedulers
    | Fetch(pid: Pid, q: Query, ids: set<Uuid>, at: int, o: Outcome)
    | SchedMark(pid: Pid, id: Uuid, o: Outcome)
    | SchedEnqueue(pid: Pid, o: Outcome)
    | SchedStop(pid: Pid)
    // workers
    | Dequeue(w: Pid, o: Outcome)
    | MarkProcessing(w: Pid, o: Outcome)
    | Ask(w: Pid, o: Outcome)
    | WaitFails(w: Pid)
    | CallSend(w: Pid)
    | SendReturns(w: Pid, reply: Result<string, string>)
    | PlanRetry(w: Pid, jitter: real)
    | MarkDelivered(w: Pid, o: Outcome)
    | CountAttempt(w: Pid, o: Outcome)
    | MarkFailed(w: Pid, o: Outcome)
    | AckEntry(w: Pid, o: Outcome)
    | Abandon(w: Pid)

  /** The steps of a worker, of an API call, and of a scheduler tick. */
  predicate ByWorker(step: Step) {
    || step.Dequeue? || step.MarkProcessing? || step.Ask? || step.WaitFails? || step.CallSend?
    || step.SendReturns? || step.PlanRetry? || step.MarkDelivered? || step.CountAttempt?
    || step.MarkFailed? || step.AckEntry? || step.Abandon?
  }

  predicate ByCreator(step: Step) {
    step.Persist? || step.CreatorEnqueue? || step.CreatorMark? || step.CreatorStop?
  }

  predicate BySched(step: Step) {
    step.Fetch? || step.SchedMark? || step.SchedEnqueue? || step.SchedStop?
  }

  function Millis(ns: int): int { ns / 1_000_000 }

  function BucketOf(s: State, ch: Channel): TokenBucket.Bucket {
    if ch in s.buckets then s.buckets[ch] else TokenBucket.Missing
  }

  /** An UPDATE that matches no row reports `NotFound`, never success. */
  predicate Found(s: State, o: Outcome, id: Uuid) { o.Done? ==> id in s.rows }

  function Pc(s: State, w: Pid): WorkerPc
    requires w in s.workers
  {
    s.workers[w].pc
  }

  predicate Enabled(s: State, step: Step) {
    match step
    case Tick(to) => s.now <= to
    case Persist(pid, ns, o) =>
      && pid !in s.creators && ns != []
      && (forall i :: 0 <= i < |ns| ==> Fresh(ns[i]) && IsValid(ns[i]) && ns[i].status == Pending)
      && (o.Refused? || Insert(s.rows, ns).Success?)
    case CreatorEnqueue(pid, id, _) =>
      pid in s.creators && s.creators[pid].late.None? && id in s.creators[pid].todo
    case CreatorMark(pid, o) =>
      pid in s.creators && s.creators[pid].late.Some? && Found(s, o, s.creators[pid].late.value)
    case CreatorStop(pid) => pid in s.creators
    case CancelCall(_, _) => true
    case Fetch(pid, q, ids, at, _) =>
      && pid !in s.scheds && at <= s.now
      && forall id :: id in ids ==> id in s.rows && q.Ready(s.rows[id], at)
    case SchedMark(pid, id, o) =>
      pid in s.scheds && s.scheds[pid].marked.None? && id in s.scheds[pid].todo && Found(s, o, id)
    case SchedEnqueue(pid, _) =>
      pid in s.scheds && s.scheds[pid].marked.Some? && s.scheds[pid].marked.value in s.scheds[pid].todo
    case SchedStop(pid) => pid in s.scheds
    case Dequeue(w, _) =>
      && w in s.workers && Pc(s, w).Idle?
      && At(s.queues, s.workers[w].key).cursor < |At(s.queues, s.workers[w].key).entries|
    case MarkProcessing(w, o) =>
      w in s.workers && Pc(s, w).Got? && Found(s, o, Pc(s, w).msg.notification.id)
    case Ask(w, _) => w in s.workers && Pc(s, w).Waiting? && s.cfg.limits.Valid()
    case WaitFails(w) => w in s.workers && Pc(s, w).Waiting?
    case CallSend(w) => w in s.workers && Pc(s, w).Granted?
    case SendReturns(w, _) => w in s.workers && Pc(s, w).Sending?
    case PlanRetry(w, jitter) => w in s.workers && Pc(s, w).Rejected? && Backoff.IsJitter(jitter)
    case MarkDelivered(w, o) =>
      w in s.workers && Pc(s, w).Accepted? && Found(s, o, Pc(s, w).msg.notification.id)
    case CountAttempt(w, o) =>
      w in s.workers && Pc(s, w).Planned? && Found(s, o, Pc(s, w).msg.notification.id)
    case MarkFailed(w, o) =>
      w in s.workers && Pc(s, w).Counted? && Found(s, o, Pc(s, w).msg.notification.id)
    case AckEntry(w, _) => w in s.workers && Pc(s, w).Acking?
    case Abandon(w) => w in s.workers
  }

  // --------------------------------------------------------- small updates

  /** The table after an UPDATE of one row. */
  function Written(s: State, o: Outcome, id: Uuid, status: Status,
                   providerId: Option<string>, error: Option<string>): Table {
    if o.Refused? then s.rows else SetStatus(s.rows, id, status, providerId, error)
  }

  /** The streams after an XADD. */
  function Appended(s: State, o: Outcome, n: Notification): Queues {
    if o.Refused? then s.queues else Append(s.queues, n)
  }

  function Without<V>(m: map<Uuid, V>, id: Uuid): map<Uuid, V> {
    map x | x in m && x != id :: m[x]
  }

  /** The freshly inserted notifications that are not scheduled. */
  function Unscheduled(t: Table, ns: seq<Notification>): map<Uuid, Notification> {
    map id | id in t && id in Ids(ns) && t[id].scheduledAt.None? :: t[id]
  }

  function RetryTime(s: State, n: Notification, jitter: real): Option<int> {
    if n.attempts + 1 < n.maxAttempts
    then Some(s.now + Backoff.Delay(n.attempts + 1, s.cfg.baseDelay, s.cfg.maxDelay, jitter))
    else None
  }

  // ------------------------------------------------------------- the steps

  function Apply(s: State, step: Step): State
    requires Enabled(s, step)
  {
    if ByWorker(step) then ApplyByWorker(s, step) else ApplyByApi(s, step)
  }

  /** All that a step of a worker can change, its own place in the code included. */
  datatype WorkerEffect = WorkerEffect(
    pc: WorkerPc, rows: Table, queues: Queues, buckets: map<Channel, TokenBucket.Bucket>, log: History)

  function ApplyByWorker(s: State, step: Step): State
    requires ByWorker(step) && Enabled(s, step)
  {
    var e := EffectOfWorker(s, step);
    s.(workers := s.workers[step.w := s.workers[step.w].(pc := e.pc)],
       rows := e.rows, queues := e.queues, buckets := e.buckets, log := e.log)
  }

  /** The worker goes to `pc` and touches nothing shared. */
  function Move(s: State, pc: WorkerPc): WorkerEffect {
    WorkerEffect(pc, s.rows, s.queues, s.buckets, s.log)
  }

  /** The worker goes on if its call worked; any error ends `Process`. */
  function Proceed(s: State, o: Outcome, pc: WorkerPc): WorkerEffect {
    Move(s, if o.Done? then pc else Idle)
  }

  function EffectOfWorker(s: State, step: Step): WorkerEffect
    requires ByWorker(step) && Enabled(s, step)
  {
    var pc := Pc(s, step.w);
    match step
    case Dequeue(w, o) => Dequeued(s, w, o)
    case MarkProcessing(_, o) =>
      Proceed(s, o, Waiting(pc.msg)).(rows := Written(s, o, pc.msg.notification.id, Processing, None, None))
    case Ask(w, o) => Asking(s, w, o)
    case WaitFails(_) => Move(s, Idle)
    case CallSend(w) =>
      var n := pc.msg.notification;
      Move(s, Sending(pc.msg)).(log := Then(s.log, SendCalled(w, n.id, n.channel, s.now)))
    case SendReturns(w, reply) =>
      Move(s, if reply.Success? then Accepted(pc.msg, reply.value) else Rejected(pc.msg, reply.error))
        .(log := Then(s.log, SendReturned(w, pc.msg.notification.id, reply)))
    case PlanRetry(_, jitter) => Move(s, Planned(pc.msg, pc.error, RetryTime(s, pc.msg.notification, jitter)))
    case MarkDelivered(_, o) =>
      Proceed(s, o, Acking(pc.msg))
        .(rows := Written(s, o, pc.msg.notification.id, Delivered, Some(pc.providerId), None))
    case CountAttempt(_, o) =>
      Proceed(s, o, Counted(pc.msg, pc.error))
        .(rows := if o.Refused? then s.rows else Increment(s.rows, pc.msg.notification.id, pc.next, s.now))
    case MarkFailed(_, o) =>
      Proceed(s, o, Acking(pc.msg))
        .(rows := Written(s, o, pc.msg.notification.id, Failed, None, Some(pc.error)))
    case AckEntry(_, o) =>
      Move(s, Idle).(queues := if o.Refused? then s.queues
                               else Acknowledge(s.queues, KeyOf(pc.msg.notification), pc.msg.streamMsgId))
    case Abandon(_) => Move(s, Idle)
  }

  function Dequeued(s: State, w: Pid, o: Outcome): WorkerEffect
    requires Enabled(s, Dequeue(w, o))
  {
    var key := s.workers[w].key;
    var stream := At(s.queues, key);
    if o.Refused? then Move(s, Idle)
    else Proceed(s, o, Got(QueueMessage(stream.cursor, stream.entries[stream.cursor])))
           .(queues := ReadOne(s.queues, key))
  }

  function Asking(s: State, w: Pid, o: Outcome): WorkerEffect
    requires Enabled(s, Ask(w, o))
  {
    var msg := Pc(s, w).msg;
    var ch := msg.notification.channel;
    var (bucket, reply) := TokenBucket.Take(s.cfg.limits, BucketOf(s, ch), Millis(s.now));
    if o.Refused? then Move(s, Idle)
    else Proceed(s, o, if reply.allowed then Granted(msg) else Waiting(msg))
      .(buckets := s.buckets[ch := bucket], log := Then(s.log, Asked(w, ch, Millis(s.now), reply.allowed)))
  }

  /** All that an API call, a scheduler or the clock can change. */
  datatype ApiEffect = ApiEffect(
    now: int, rows: Table, queues: Queues, creators: map<Pid, Creator>, scheds: map<Pid, Sched>)

  function ApplyByApi(s: State, step: Step): State
    requires !ByWorker(step) && Enabled(s, step)
  {
    var e := EffectOfApi(s, step);
    s.(now := e.now, rows := e.rows, queues := e.queues, creators := e.creators, scheds := e.scheds)
  }

  function Unchanged(s: State): ApiEffect {
    ApiEffect(s.now, s.rows, s.queues, s.creators, s.scheds)
  }

  function EffectOfApi(s: State, step: Step): ApiEffect
    requires !ByWorker(step) && Enabled(s, step)
  {
    match step
    case Tick(to) => Unchanged(s).(now := to)
    case Persist(pid, ns, o) => Persisted(s, pid, ns, o)
    case CreatorEnqueue(pid, id, o) =>
      var c := s.creators[pid];
      Unchanged(s).(queues := Appended(s, o, c.todo[id]),
                    creators := s.creators[pid := Creator(Without(c.todo, id), if o.Done? then Some(id) else None)])
    case CreatorMark(pid, o) =>
      var c := s.creators[pid];
      Unchanged(s).(rows := Written(s, o, c.late.value, Queued, None, None),
                    creators := s.creators[pid := c.(late := None)])
    case CreatorStop(pid) => Unchanged(s).(creators := Without(s.creators, pid))
    case CancelCall(id, o) => Unchanged(s).(rows := if o.Refused? then s.rows else CancelRow(s.rows, id))
    case Fetch(pid, _, ids, _, o) => FetchedBy(s, pid, ids, o)
    case SchedMark(pid, id, o) =>
      var c := s.scheds[pid];
      Unchanged(s).(rows := Written(s, o, id, Queued, None, None),
                    scheds := s.scheds[pid := if o.Done? then c.(marked := Some(id))
                                              else c.(todo := Without(c.todo, id))])
    case SchedEnqueue(pid, o) =>
      var c := s.scheds[pid];
      var id := c.marked.value;
      Unchanged(s).(queues := Appended(s, o, c.todo[id]),
                    scheds := s.scheds[pid := Sched(Without(c.todo, id), None)])
    case SchedStop(pid) => Unchanged(s).(scheds := Without(s.scheds, pid))
  }

  function Persisted(s: State, pid: Pid, ns: seq<Notification>, o: Outcome): ApiEffect
    requires Enabled(s, Persist(pid, ns, o))
  {
    if o.Refused? then Unchanged(s)
    else
      var rows := Insert(s.rows, ns).value;
      Unchanged(s).(rows := rows,
                    creators := if o.Lost? then s.creators
                                else s.creators[pid := Creator(Unscheduled(rows, ns), None)])
  }

  function FetchedBy(s: State, pid: Pid, ids: set<Uuid>, o: Outcome): ApiEffect
    requires forall id :: id in ids ==> id in s.rows
  {
    if o.Refused? then Unchanged(s)
    else
      var rows := MarkQueued(s.rows, ids);
      Unchanged(s).(rows := rows,
                    scheds := if o.Lost? then s.scheds
                              else s.scheds[pid := Sched(map id | id in ids :: rows[id], None)])
  }

  // ------------------------------------------------------------------ runs

  ghost predicate ValidRun(s: State, steps: seq<Step>)
    decreases |steps|
  {
    steps == [] || (Enabled(s, steps[0]) && ValidRun(Apply(s, steps[0]), steps[1..]))
  }

  ghost function After(s: State, steps: seq<Step>): State
    requires ValidRun(s, steps)
    decreases |steps|
  {
    if steps == [] then s else After(Apply(s, steps[0]), steps[1..])
  }

  // ------------------------------------------------ runs without errors

  /** A step without an infrastructure error: calls work (or are refused for a
      reason of the caller's), and no process stops in the middle of its work. */
  predicate Orderly(s: State, step: Step)
    requires Enabled(s, step)
  {
    match step
    case Tick(_) => true
    case Persist(_, _, o) => !o.Lost?
    case CreatorEnqueue(_, _, o) => o.Done?
    case CreatorMark(_, o) => o.Done?
    case CreatorStop(pid) => s.creators[pid].todo == map[] && s.creators[pid].late.None?
    case CancelCall(_, o) => !o.Lost?
    case Fetch(_, _, _, _, o) => o.Done?
    case SchedMark(_, _, o) => o.Done?
    case SchedEnqueue(_, o) => o.Done?
    case SchedStop(pid) => s.scheds[pid].todo == map[]
    case Dequeue(_, o) => o.Done?
    case MarkProcessing(_, o) => o.Done?
    case Ask(_, o) => o.Done?
    case WaitFails(_) => false
    case CallSend(_) => true
    case SendReturns(_, _) => true
    case PlanRetry(_, _) => true
    case MarkDelivered(_, o) => o.Done?
    case CountAttempt(_, o) => o.Done?
    case MarkFailed(_, o) => o.Done?
    case AckEntry(_, o) => o.Done?
    case Abandon(_) => false
  }

  /** Valid and without infrastructure errors; any calls may interleave. */
  ghost predicate ErrorFree(s: State, steps: seq<Step>)
    decreases |steps|
  {
    steps == [] || (Enabled(s, steps[0]) && Orderly(s, steps[0]) && ErrorFree(Apply(s, steps[0]), steps[1..]))
  }

  // ------------------------------------------------- reading the history

  /** Instants of the `Send` calls for a notification. */
  function SendTimes(h: History, id: Uuid): seq<int> {
    match h
    case Start => []
    case Then(past, e) =>
      if e.SendCalled? && e.id == id then SendTimes(past, id) + [e.at] else SendTimes(past, id)
  }

  /** The message ids that the provider returned for it, one per successful `Send`. */
  function ProviderIds(h: History, id: Uuid): seq<string> {
    match h
    case Start => []
    case Then(past, e) =>
      if e.SendReturned? && e.id == id && e.reply.Success? then ProviderIds(past, id) + [e.reply.value]
      else ProviderIds(past, id)
  }

  /** How many came back with success. */
  function Successes(h: History, id: Uuid): nat { |ProviderIds(h, id)| }

  /** The attempt numbers carried by the stream entries of a notification, oldest first. */
  function EntryAttempts(entries: seq<Notification>, id: Uuid): seq<int>
    decreases |entries|
  {
    if entries == [] then []
    else
      var n := entries[|entries| - 1];
      EntryAttempts(entries[..|entries| - 1], id) + if n.id == id then [n.attempts] else []
  }
}
