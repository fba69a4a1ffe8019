/** The API side in the form of the source (internal/service/notification_service.go).
    Before each call the other processes may run. */
module NotificationServices {
  import opened Wrappers
  import opened Entity
  import opened NotificationTable
  import opened Streams
  import opened Lifecycle
  import opened LifecycleInvariant
  import opened LifecycleSteps
  import opened LifecycleEffects
  import opened Runtime
  import opened Batches

  const MAX_BATCH_SIZE: nat := 1000

  datatype ServiceError =
    | EmptyBatch
    | BatchTooLarge
    | Invalid(index: nat, errs: seq<FieldError>)
    | PersistFailed
    | EnqueueFailed
    | QueuedStatus
    | CancelFailed

  /** The entities as the service stores them. */
  function AllPending(ns: seq<Notification>): (r: seq<Notification>)
    ensures |r| == |ns| && forall i :: 0 <= i < |ns| ==> r[i] == ns[i].(status := Pending)
  {
    seq(|ns|, i requires 0 <= i < |ns| => ns[i].(status := Pending))
  }

  function IdsInOrder(batch: seq<Notification>): seq<Uuid> {
    seq(|batch|, i requires 0 <= i < |batch| => batch[i].id)
  }

  /** The ids of the notifications that are not scheduled. */
  function UnscheduledIds(ns: seq<Notification>): set<Uuid> {
    set i | 0 <= i < |ns| && ns[i].scheduledAt.None? :: ns[i].id
  }

  lemma SameIds(ns: seq<Notification>, batch: seq<Notification>)
    requires |batch| == |ns| && forall i :: 0 <= i < |ns| ==> batch[i] == ns[i].(status := Pending)
    ensures IdsInOrder(batch) == IdsInOrder(ns) && UnscheduledIds(batch) == UnscheduledIds(ns)
  {
    forall id ensures id in UnscheduledIds(batch) <==> id in UnscheduledIds(ns) {
      if id in UnscheduledIds(batch) {
        var i :| 0 <= i < |batch| && batch[i].scheduledAt.None? && batch[i].id == id;
        assert ns[i].id == id && ns[i].scheduledAt.None?;
      }
      if id in UnscheduledIds(ns) {
        var i :| 0 <= i < |ns| && ns[i].scheduledAt.None? && ns[i].id == id;
        assert batch[i].id == id && batch[i].scheduledAt.None?;
      }
    }
  }

  lemma DueAreUnscheduled(s: State, batch: seq<Notification>)
    requires DistinctIds(batch)
    requires forall i :: 0 <= i < |batch| ==> batch[i].id in s.rows && s.rows[batch[i].id] == batch[i]
    ensures Unscheduled(s.rows, batch).Keys == UnscheduledIds(batch)
  {
    TodoOf(s, batch);
    forall id ensures id in Unscheduled(s.rows, batch) <==> id in UnscheduledIds(batch) {
      if id in Unscheduled(s.rows, batch) {
        var i :| 0 <= i < |batch| && batch[i].id == id;
      }
      if id in UnscheduledIds(batch) {
        var i :| 0 <= i < |batch| && batch[i].scheduledAt.None? && batch[i].id == id;
      }
    }
  }

  /** What a call has to enqueue after its INSERT: the unscheduled ones of the batch. */
  lemma TodoOf(s: State, batch: seq<Notification>)
    requires DistinctIds(batch)
    requires forall i :: 0 <= i < |batch| ==> batch[i].id in s.rows && s.rows[batch[i].id] == batch[i]
    ensures Distinct(IdsInOrder(batch))
    ensures forall i :: 0 <= i < |batch| ==>
      && (batch[i].id in Unscheduled(s.rows, batch) <==> batch[i].scheduledAt.None?)
      && (batch[i].scheduledAt.None? ==> Unscheduled(s.rows, batch)[batch[i].id] == batch[i])
  {
    forall i | 0 <= i < |batch| ensures batch[i].id in Ids(batch) {}
  }

  lemma BatchPublished(s: State, s': State, batch: seq<Notification>, logged: set<Uuid>)
    requires DistinctIds(batch)
    requires forall i :: 0 <= i < |batch| ==> batch[i].id in s.rows && s.rows[batch[i].id] == batch[i]
    requires Published(s', Unscheduled(s.rows, batch), IdsInOrder(batch), |batch|, logged)
    ensures forall i :: 0 <= i < |batch| && batch[i].scheduledAt.None? ==>
      batch[i].id in logged || InStream(s', batch[i])
  {
    TodoOf(s, batch);
    forall i | 0 <= i < |batch| && batch[i].scheduledAt.None? ensures batch[i].id in logged || InStream(s', batch[i]) {
      assert IdsInOrder(batch)[i] in Unscheduled(s.rows, batch);
    }
  }

  lemma PersistEffect(s: State, pid: Pid, ns: seq<Notification>, o: Outcome)
    requires pid !in s.creators && ns != []
    requires forall i :: 0 <= i < |ns| ==> Fresh(ns[i]) && IsValid(ns[i]) && ns[i].status == Pending
    requires o.Refused? || Insert(s.rows, ns).Success?
    ensures Enabled(s, Persist(pid, ns, o))
    ensures !o.Done? ==> Apply(s, Persist(pid, ns, o)).creators == s.creators
    ensures o.Done? ==>
      var s' := Apply(s, Persist(pid, ns, o));
      && pid in s'.creators && s'.creators[pid] == Creator(Unscheduled(s'.rows, ns), None)
      && DistinctIds(ns) && forall i :: 0 <= i < |ns| ==> ns[i].id in s'.rows && s'.rows[ns[i].id] == ns[i]
  {
    if o.Done? { InsertAddsExactly(s.rows, ns); }
  }

  lemma CreatorEnqueueEffect(s: State, pid: Pid, id: Uuid, o: Outcome)
    requires pid in s.creators && s.creators[pid].late.None? && id in s.creators[pid].todo
    ensures var step := CreatorEnqueue(pid, id, o);
      && Enabled(s, step) && pid in Apply(s, step).creators
      && Apply(s, step).creators[pid]
         == Creator(Without(s.creators[pid].todo, id), if o.Done? then Some(id) else None)
      && (!o.Refused? ==> InStream(Apply(s, step), s.creators[pid].todo[id]))
  {
    if !o.Refused? {
      var n := s.creators[pid].todo[id];
      var s' := Apply(s, CreatorEnqueue(pid, id, o));
      assert s'.queues[KeyOf(n)].entries[|At(s.queues, KeyOf(n)).entries|] == n;
    }
  }

  lemma CreatorMarkEffect(s: State, pid: Pid, o: Outcome)
    requires Inv(s) && pid in s.creators && s.creators[pid].late.Some?
    ensures var step, id := CreatorMark(pid, o), s.creators[pid].late.value;
      && Enabled(s, step) && pid in Apply(s, step).creators
      && Apply(s, step).creators[pid] == Creator(s.creators[pid].todo, None)
      && (o.Done? ==> id in Apply(s, step).rows && Apply(s, step).rows[id].status == Queued)
  {
    assert CreatorOk(s, s.creators[pid]);
  }

  class NotificationService {
    const world: World
    const pid: Pid

    constructor (world: World, pid: Pid)
      ensures this.world == world && this.pid == pid
    {
      this.world := world;
      this.pid := pid;
    }

    /** The call has inserted its rows and is between two notifications. */
    ghost predicate Between()
      reads this, world
    {
      world.Valid() && pid in world.st.creators && world.st.creators[pid].late.None?
    }

    /** Publishes one notification and only then marks it as queued: on success its
        snapshot is in the stream and its row says `queued`, whatever a worker may
        have made of it in the meantime; `turn` is the last call, on failure the one that
        failed. */
    method EnqueueAndMark(id: Uuid) returns (r: Result<(), ServiceError>, ghost turn: nat)
      requires Between() && id in world.st.creators[pid].todo
      modifies world
      ensures Between() && world.st.creators[pid].todo == Without(old(world.st.creators[pid].todo), id)
      ensures Extends(old(world.st), world.st) && old(world.run) <= world.run
      ensures r.Success? ==> id in world.st.rows && world.st.rows[id].status == Queued
      ensures r.Success? || r.error == QueuedStatus ==> InStream(world.st, old(world.st.creators[pid].todo[id]))
      ensures EndedAt(world.run, CreatorActor(pid), id, turn, |old(world.run)|, r.Failure?)
      ensures r.Failure? ==>
        r.error == (if world.run[turn].step.CreatorEnqueue? then EnqueueFailed else QueuedStatus)
    {
      ghost var n := world.st.creators[pid].todo[id];
      r, turn := Publish(id);
      if r.Failure? { return; }
      ghost var before := world.st;
      r, turn := Mark();
      InStreamKept(before, world.st, n);
    }

    /** `producer.Enqueue`. */
    method Publish(id: Uuid) returns (r: Result<(), ServiceError>, ghost turn: nat)
      requires Between() && id in world.st.creators[pid].todo
      modifies world
      ensures world.Valid() && pid in world.st.creators
      ensures world.st.creators[pid]
           == Creator(Without(old(world.st.creators[pid].todo), id), if r.Success? then Some(id) else None)
      ensures Extends(old(world.st), world.st) && old(world.run) <= world.run
      ensures r.Success? ==> InStream(world.st, old(world.st.creators[pid].todo[id]))
      ensures r.Failure? ==>
        && EndedAt(world.run, CreatorActor(pid), id, turn, |old(world.run)|, true)
        && r.error == EnqueueFailed && world.run[turn].step.CreatorEnqueue?
    {
      world.Others(CreatorActor(pid));
      var o := world.Outcome();
      turn := |world.run|;
      CreatorEnqueueEffect(world.st, pid, id, o);
      world.Do(CreatorEnqueue(pid, id, o));
      r := if o.Done? then Success(()) else Failure(EnqueueFailed);
    }

    /** The status write after the publish. */
    method Mark() returns (r: Result<(), ServiceError>, ghost turn: nat)
      requires world.Valid() && pid in world.st.creators && world.st.creators[pid].late.Some?
      modifies world
      ensures Between() && world.st.creators[pid].todo == old(world.st.creators[pid].todo)
      ensures Extends(old(world.st), world.st) && old(world.run) <= world.run
      ensures var id := old(world.st.creators[pid].late.value);
        && (r.Success? ==> id in world.st.rows && world.st.rows[id].status == Queued)
        && (r.Success? ==>
              StatusWritten(world.run, world.st, |old(world.run)|, CreatorMark(pid, Done), id, Queued, None, None))
        && EndedAt(world.run, CreatorActor(pid), id, turn, |old(world.run)|, r.Failure?)
      ensures world.run[turn].step.CreatorMark? && (r.Failure? ==> r.error == QueuedStatus)
    {
      world.Others(CreatorActor(pid));
      var o := world.Outcome();
      turn := |world.run|;
      CreatorMarkEffect(world.st, pid, o);
      CreatorMarkWrites(world.st, pid, o);
      ghost var run, s, id := world.run, world.st, world.st.creators[pid].late.value;
      assert CreatorOk(s, s.creators[pid]);
      world.Do(CreatorMark(pid, o));
      if !o.Done? { return Failure(QueuedStatus), turn; }
      JustWritten(run, s, world.st, CreatorMark(pid, Done), id, Queued, None, None);
      EarlierWrite(world.run, world.st, |run|, |old(world.run)|, CreatorMark(pid, Done), id, Queued, None, None);
      r := Success(());
    }

    /** Step `at` of the run is the INSERT of `ns`. It was refused for a repeated key, or
        ended as its luck has it. */
    ghost predicate StoredAt(at: nat, from: nat, ns: seq<Notification>, stored: bool)
      reads world
    {
      && from <= at < |world.run|
      && (exists o: Outcome :: world.run[at].step == Persist(pid, ns, o) && (stored <==> o.Done?))
      && (stored <==> Insert(world.run[at].before.rows, ns).Success? && world.luck(at).outcome.Done?)
    }

    /** `repo.Create` or `repo.CreateBatch`: all rows or none. */
    method Store(ns: seq<Notification>) returns (r: Result<(), ServiceError>, ghost at: nat)
      requires world.Valid() && pid !in world.st.creators && ns != []
      requires forall i :: 0 <= i < |ns| ==> Fresh(ns[i]) && IsValid(ns[i]) && ns[i].status == Pending
      modifies world
      ensures world.Valid() && old(world.run) <= world.run && Extends(old(world.st), world.st)
      ensures StoredAt(at, |old(world.run)|, ns, r.Success?)
      ensures r.Failure? ==> r.error == PersistFailed && pid !in world.st.creators
      ensures r.Success? ==>
        && Between() && DistinctIds(ns)
        && world.st.creators[pid].todo == Unscheduled(world.st.rows, ns)
        && forall i :: 0 <= i < |ns| ==> ns[i].id in world.st.rows && world.st.rows[ns[i].id] == ns[i]
    {
      world.Others(CreatorActor(pid));
      var o := world.Outcome();
      at := |world.run|;
      if Insert(world.st.rows, ns).Failure? { o := Refused; }
      PersistEffect(world.st, pid, ns, o);
      world.Do(Persist(pid, ns, o));
      r := if o.Done? then Success(()) else Failure(PersistFailed);
    }

    lemma StillStored(run: seq<Moment>, at: nat, from: nat, ns: seq<Notification>, stored: bool)
      requires run <= world.run && from <= at < |run|
      requires exists o: Outcome :: run[at].step == Persist(pid, ns, o) && (stored <==> o.Done?)
      requires stored <==> Insert(run[at].before.rows, ns).Success? && world.luck(at).outcome.Done?
      ensures StoredAt(at, from, ns, stored)
    {
      assert world.run[at] == run[at];
    }

    method Stop()
      requires Between()
      modifies world
      ensures world.Valid() && pid !in world.st.creators && world.st.rows == old(world.st.rows)
      ensures Extends(old(world.st), world.st) && old(world.run) <= world.run
    {
      world.Do(CreatorStop(pid));
    }

    /** An invalid entity changes nothing. A valid one is inserted in step `at` of the run;
        unless that fails, a scheduled one is left as a pending row, and any other is in
        its stream when `Create` returns without error, and its row says `queued`. */
    method Create(n: Notification) returns (r: Result<Notification, ServiceError>, ghost at: nat, ghost turn: nat)
      requires world.Valid() && pid !in world.st.creators && Fresh(n)
      modifies world
      ensures world.Valid() && pid !in world.st.creators && old(world.run) <= world.run
      ensures (r.Failure? && r.error.Invalid?) <==> !IsValid(n)
      ensures !IsValid(n) ==> world.st == old(world.st) && world.run == old(world.run)
      ensures IsValid(n) ==>
        StoredAt(at, |old(world.run)|, [n.(status := Pending)], !(r.Failure? && r.error == PersistFailed))
      ensures r.Success? ==> n.id in world.st.rows && SameIdentity(n, world.st.rows[n.id])
      ensures r.Success? && n.scheduledAt.Some? ==>
        world.st.rows[n.id] == r.value == n.(status := Pending) && Holds(world.st, n.id, AtRow)
      ensures r.Success? && n.scheduledAt.None? ==>
        && r.value == n.(status := Queued) && world.st.rows[n.id].status == Queued
        && InStream(world.st, n.(status := Pending))
      ensures r.Failure? ==> r.error.Invalid? || r.error in {PersistFailed, EnqueueFailed, QueuedStatus}
      ensures r.Failure? && (r.error == EnqueueFailed || r.error == QueuedStatus) ==>
        && n.scheduledAt.None? && n.id in world.st.rows
        && EndedAt(world.run, CreatorActor(pid), n.id, turn, at, true)
        && r.error == (if world.run[turn].step.CreatorEnqueue? then EnqueueFailed else QueuedStatus)
        && (r.error == QueuedStatus ==> InStream(world.st, n.(status := Pending)))
    {
      at, turn := 0, 0;
      var errs := Validate(n);
      if errs != [] { return Failure(Invalid(0, errs)), at, turn; }
      var pending := n.(status := Pending);
      var stored;
      stored, at := Store([pending]);
      if stored.Failure? { return Failure(stored.error), at, turn; }
      ghost var run := world.run;
      assert [pending][0] == pending;
      if n.scheduledAt.Some? {
        Stop();
        StillStored(run, at, |old(world.run)|, [pending], true);
        return Success(pending), at, turn;
      }
      assert pending.id in Ids([pending]);
      var marked;
      marked, turn := PublishStored(pending);
      StillStored(run, at, |old(world.run)|, [pending], true);
      r := if marked.Success? then Success(n.(status := Queued)) else Failure(marked.error);
    }

    /** The rest of `Create` for a notification that is not scheduled. */
    method PublishStored(n: Notification) returns (r: Result<(), ServiceError>, ghost turn: nat)
      requires Between() && n.id in world.st.creators[pid].todo && world.st.creators[pid].todo[n.id] == n
      modifies world
      ensures world.Valid() && pid !in world.st.creators && old(world.run) <= world.run
      ensures Extends(old(world.st), world.st)
      ensures r.Success? ==> n.id in world.st.rows && world.st.rows[n.id].status == Queued
      ensures r.Success? || r.error == QueuedStatus ==> InStream(world.st, n)
      ensures r.Failure? ==>
        && EndedAt(world.run, CreatorActor(pid), n.id, turn, |old(world.run)|, true)
        && r.error == (if world.run[turn].step.CreatorEnqueue? then EnqueueFailed else QueuedStatus)
    {
      r, turn := EnqueueAndMark(n.id);
      ghost var before := world.st;
      Stop();
      if r.Success? || r.error == QueuedStatus { InStreamKept(before, world.st, n); }
    }

    /** Rejects an empty or oversized batch and the first invalid entry before anything
        is stored. Otherwise step `at` of the run inserts all rows, and unless that fails,
        those that are not scheduled are dealt with in order, and each ends up in its stream
        unless a call made for it fails: the failed ones are only logged, and `turns` gives
        each item its last call, for a failed one the call that failed. */
    method CreateBatch(ns: seq<Notification>)
      returns (r: Result<(), ServiceError>, logged: set<Uuid>, ghost turns: map<Uuid, nat>, ghost at: nat)
      requires world.Valid() && pid !in world.st.creators
      requires forall i :: 0 <= i < |ns| ==> Fresh(ns[i])
      modifies world
      ensures world.Valid() && pid !in world.st.creators && old(world.run) <= world.run
      ensures (r.Failure? && r.error == EmptyBatch) <==> ns == []
      ensures (r.Failure? && r.error == BatchTooLarge) <==> |ns| > 1000
      ensures (r.Failure? && r.error.Invalid?) <==>
        0 < |ns| <= 1000 && exists i :: 0 <= i < |ns| && !IsValid(ns[i])
      ensures r.Failure? && r.error.Invalid? ==>
        && r.error.index < |ns| && !IsValid(ns[r.error.index])
        && forall i :: 0 <= i < r.error.index ==> IsValid(ns[i])
      ensures r.Failure? && r.error != PersistFailed ==> world.st == old(world.st) && world.run == old(world.run)
      ensures r.Failure? ==> r.error.Invalid? || r.error in {EmptyBatch, BatchTooLarge, PersistFailed}
      ensures r.Success? || r.error == PersistFailed ==>
        StoredAt(at, |old(world.run)|, AllPending(ns), r.Success?)
      ensures r.Success? ==> forall i :: 0 <= i < |ns| ==>
        && ns[i].id in world.st.rows && SameIdentity(ns[i], world.st.rows[ns[i].id])
        && (ns[i].scheduledAt.None? ==> ns[i].id in logged || InStream(world.st, ns[i].(status := Pending)))
      ensures r.Success? ==>
        DealtWith(world.run, CreatorActor(pid), IdsInOrder(ns), UnscheduledIds(ns), |ns|, logged, turns, at)
      ensures r.Failure? ==> logged == {}
    {
      logged, turns, at := {}, map[], 0;
      if |ns| == 0 { return Failure(EmptyBatch), logged, turns, at; }
      if |ns| > MAX_BATCH_SIZE { return Failure(BatchTooLarge), logged, turns, at; }
      var batch := [];
      for i := 0 to |ns|
        invariant world.st == old(world.st) && world.run == old(world.run) && world.Valid()
        invariant |batch| == i && forall j :: 0 <= j < i ==> IsValid(ns[j]) && batch[j] == ns[j].(status := Pending)
      {
        var errs := Validate(ns[i]);
        if errs != [] { return Failure(Invalid(i, errs)), logged, turns, at; }
        batch := batch + [ns[i].(status := Pending)];
      }
      assert batch == AllPending(ns);
      SameIds(ns, batch);
      r, logged, turns, at := StoreAndEnqueue(batch);
    }

    /** `CreateBatch` once the batch is valid. */
    method StoreAndEnqueue(batch: seq<Notification>)
      returns (r: Result<(), ServiceError>, logged: set<Uuid>, ghost turns: map<Uuid, nat>, ghost at: nat)
      requires world.Valid() && pid !in world.st.creators && batch != []
      requires forall i :: 0 <= i < |batch| ==> Fresh(batch[i]) && IsValid(batch[i]) && batch[i].status == Pending
      modifies world
      ensures world.Valid() && pid !in world.st.creators && old(world.run) <= world.run
      ensures StoredAt(at, |old(world.run)|, batch, r.Success?)
      ensures r.Failure? ==> r.error == PersistFailed && logged == {}
      ensures r.Success? ==> forall i :: 0 <= i < |batch| ==>
        && batch[i].id in world.st.rows && SameIdentity(batch[i], world.st.rows[batch[i].id])
        && (batch[i].scheduledAt.None? ==> batch[i].id in logged || InStream(world.st, batch[i]))
      ensures r.Success? ==>
        DealtWith(world.run, CreatorActor(pid), IdsInOrder(batch), UnscheduledIds(batch), |batch|, logged, turns, at)
    {
      logged, turns := {}, map[];
      r, at := Store(batch);
      if r.Failure? { return; }
      TodoOf(world.st, batch);
      ghost var stored, run := world.st, world.run;
      logged, turns := EnqueueBatch(batch);
      BatchPublished(stored, world.st, batch, logged);
      StillStored(run, at, |old(world.run)|, batch, true);
      DueAreUnscheduled(stored, batch);
      StillDealt(world.run, world.run, CreatorActor(pid), IdsInOrder(batch), UnscheduledIds(batch), |batch|,
                 logged, turns, |run|, at);
    }

    /** The enqueue loop of `CreateBatch`, and its end. */
    method EnqueueBatch(batch: seq<Notification>) returns (logged: set<Uuid>, ghost turns: map<Uuid, nat>)
      requires Between() && Distinct(IdsInOrder(batch))
      requires forall i :: 0 <= i < |batch| ==>
        (batch[i].id in world.st.creators[pid].todo <==> batch[i].scheduledAt.None?)
      modifies world
      ensures world.Valid() && pid !in world.st.creators && old(world.run) <= world.run
      ensures RowsGrow(old(world.st.rows), world.st.rows)
      ensures Published(world.st, old(world.st.creators[pid].todo), IdsInOrder(batch), |batch|, logged)
      ensures DealtWith(world.run, CreatorActor(pid), IdsInOrder(batch), old(world.st.creators[pid].todo.Keys),
                        |batch|, logged, turns, |old(world.run)|)
    {
      ghost var todo := world.st.creators[pid].todo;
      logged, turns := EnqueueAll(batch);
      ghost var before, run := world.st, world.run;
      Stop();
      StillPublished(before, world.st, todo, IdsInOrder(batch), |batch|, logged);
      StillDealt(run, world.run, CreatorActor(pid), IdsInOrder(batch), todo.Keys, |batch|, logged, turns,
                 |old(world.run)|, |old(world.run)|);
    }

    method EnqueueAll(batch: seq<Notification>) returns (logged: set<Uuid>, ghost turns: map<Uuid, nat>)
      requires Between() && Distinct(IdsInOrder(batch))
      requires forall i :: 0 <= i < |batch| ==>
        (batch[i].id in world.st.creators[pid].todo <==> batch[i].scheduledAt.None?)
      modifies world
      ensures Between() && old(world.run) <= world.run && RowsGrow(old(world.st.rows), world.st.rows)
      ensures Published(world.st, old(world.st.creators[pid].todo), IdsInOrder(batch), |batch|, logged)
      ensures DealtWith(world.run, CreatorActor(pid), IdsInOrder(batch), old(world.st.creators[pid].todo.Keys),
                        |batch|, logged, turns, |old(world.run)|)
    {
      ghost var todo := world.st.creators[pid].todo;
      var ids := IdsInOrder(batch);
      logged, turns := {}, map[];
      for i := 0 to |batch|
        invariant Between() && old(world.run) <= world.run
        invariant RowsGrow(old(world.st.rows), world.st.rows)
        invariant Remaining(world.st.creators[pid].todo, todo, ids, i)
        invariant Published(world.st, todo, ids, i, logged)
        invariant DealtWith(world.run, CreatorActor(pid), ids, todo.Keys, i, logged, turns, |old(world.run)|)
      {
        if batch[i].scheduledAt.None? {
          ghost var before := world.st.rows;
          var ok;
          ok, turns := EnqueueItem(ids, i, todo, logged, turns, |old(world.run)|);
          GrowTwice(old(world.st.rows), before, world.st.rows);
          if !ok { logged := logged + {batch[i].id}; }
        } else {
          PassedOver(world.st, world.st.creators[pid].todo, todo, logged, ids, i);
          DealtSkip(world.run, CreatorActor(pid), ids, todo.Keys, i, logged, turns, |old(world.run)|);
        }
      }
    }

    /** One round of the loop. */
    method EnqueueItem(ids: seq<Uuid>, i: nat, ghost todo: map<Uuid, Notification>, ghost logged: set<Uuid>,
                       ghost turns: map<Uuid, nat>, ghost from: nat)
      returns (ok: bool, ghost turns': map<Uuid, nat>)
      requires Between() && i < |ids| && ids[i] in todo && Distinct(ids) && from <= |world.run|
      requires Remaining(world.st.creators[pid].todo, todo, ids, i)
      requires Published(world.st, todo, ids, i, logged)
      requires DealtWith(world.run, CreatorActor(pid), ids, todo.Keys, i, logged, turns, from)
      modifies world
      ensures Between() && old(world.run) <= world.run && Extends(old(world.st), world.st)
      ensures Remaining(world.st.creators[pid].todo, todo, ids, i + 1)
      ensures Published(world.st, todo, ids, i + 1, logged + if ok then {} else {ids[i]})
      ensures DealtWith(world.run, CreatorActor(pid), ids, todo.Keys, i + 1, logged + if ok then {} else {ids[i]},
                        turns', from)
    {
      ghost var before, left, run := world.st, world.st.creators[pid].todo, world.run;
      var r, turn := EnqueueAndMark(ids[i]);
      RemainingNext(left, todo, ids, i);
      StillPublished(before, world.st, todo, ids, i, logged);
      DealtNext(run, world.run, CreatorActor(pid), ids, todo.Keys, i, logged, turns, from, r.Success?, turn);
      ok, turns' := r.Success?, turns[ids[i] := turn];
    }

    /** `Cancel`: step `at` of the run is its UPDATE. It succeeds exactly if that works
        and finds a pending or queued row, and cancels that row and no other. */
    method Cancel(id: Uuid) returns (r: Result<(), ServiceError>, ghost at: nat)
      requires world.Valid()
      modifies world
      ensures world.Valid() && old(world.run) <= world.run && |old(world.run)| <= at == |world.run| - 1
      ensures var rows := world.run[at].before.rows;
        var open := id in rows && rows[id].status in {Pending, Queued};
        && world.run[at].step == CancelCall(id, world.luck(at).outcome)
        && (r.Success? <==> open && world.luck(at).outcome.Done?)
        && (if open && !world.luck(at).outcome.Refused? then RowWritten(rows, world.st.rows, id, Cancelled, None, None)
            else world.st.rows == rows)
      ensures r.Failure? ==> r.error == CancelFailed
    {
      world.Others(CreatorActor(pid));
      var o := world.Outcome();
      at := |world.run|;
      var found := Cancellable(world.st.rows, id);
      CancelWrites(world.st.rows, id);
      CancelCallWrites(world.st, id, o);
      world.Do(CancelCall(id, o));
      r := if o.Done? && found then Success(()) else Failure(CancelFailed);
    }
  }
}
