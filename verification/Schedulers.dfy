/** The scheduler in the form of the source (internal/scheduler/scheduler.go): one
    tick fetches a batch that is due and enqueues it item by item. Before each call
    the other processes may run. */
module Schedulers {
  import opened Wrappers
  import opened Entity
  import opened NotificationTable
  import opened Streams
  import opened Lifecycle
  import opened LifecycleInvariant
  import opened LifecycleSteps
  import opened LifecycleEffects
  import opened Runtime
  import opened Batches

  const BATCH_SIZE: nat := 100

  /** The call whose error a tick or an enqueue reports. */
  datatype SchedulerError = FetchFailed | QueuedStatus | EnqueueFailed

  lemma SchedMarkEffect(s: State, pid: Pid, id: Uuid, o: Outcome)
    requires Inv(s) && pid in s.scheds && s.scheds[pid].marked.None? && id in s.scheds[pid].todo
    ensures var step := SchedMark(pid, id, o);
      && Enabled(s, step) && pid in Apply(s, step).scheds
      && Apply(s, step).scheds[pid] == (if o.Done? then Sched(s.scheds[pid].todo, Some(id))
                                        else Sched(Without(s.scheds[pid].todo, id), None))
  {
    assert SchedOk(s, s.scheds[pid]);
  }

  lemma SchedEnqueueEffect(s: State, pid: Pid, o: Outcome)
    requires pid in s.scheds && s.scheds[pid].marked.Some? && s.scheds[pid].marked.value in s.scheds[pid].todo
    ensures var step, id := SchedEnqueue(pid, o), s.scheds[pid].marked.value;
      && Enabled(s, step) && pid in Apply(s, step).scheds
      && Apply(s, step).scheds[pid] == Sched(Without(s.scheds[pid].todo, id), None)
      && (!o.Refused? ==> InStream(Apply(s, step), s.scheds[pid].todo[id]))
  {
    if !o.Refused? {
      var n := s.scheds[pid].todo[s.scheds[pid].marked.value];
      var s' := Apply(s, SchedEnqueue(pid, o));
      assert s'.queues[KeyOf(n)].entries[|At(s.queues, KeyOf(n)).entries|] == n;
    }
  }

  lemma FetchEffect(s: State, pid: Pid, q: Query, ids: seq<Uuid>, at: int, o: Outcome)
    requires pid !in s.scheds && at <= s.now
    requires forall i :: 0 <= i < |ids| ==> ids[i] in s.rows && q.Ready(s.rows[ids[i]], at)
    ensures var step := Fetch(pid, q, ToSet(ids), at, o);
      && Enabled(s, step)
      && (if o.Done? then
            && pid in Apply(s, step).scheds && Apply(s, step).scheds[pid].marked.None?
            && Apply(s, step).scheds[pid].todo
               == map id | id in ToSet(ids) :: s.rows[id].(status := Queued)
          else Apply(s, step).scheds == s.scheds)
  {
  }

  /** What `Published` says of a fetched batch. */
  lemma FetchedArePublished(s: State, rows: Table, ids: seq<Uuid>, todo: map<Uuid, Notification>, failed: set<Uuid>)
    requires ToSet(ids) <= rows.Keys && todo == map id | id in ToSet(ids) :: rows[id].(status := Queued)
    requires Published(s, todo, ids, |ids|, failed)
    ensures forall i :: 0 <= i < |ids| ==> ids[i] in failed || InStream(s, rows[ids[i]].(status := Queued))
  {
    forall i | 0 <= i < |ids| ensures ids[i] in failed || InStream(s, rows[ids[i]].(status := Queued)) {
      assert ids[i] in ToSet(ids);
    }
  }

  /** What the transaction at step `at` of a run wrote. */
  lemma FetchedAt(start: State, run: seq<Moment>, now: State, luck: nat -> Luck, at: nat,
                  pid: Pid, q: Query, ids: seq<Uuid>, when: int)
    requires IsRun(start, run, now, luck) && at < |run|
    requires exists o: Outcome :: run[at].step == Lifecycle.Fetch(pid, q, ToSet(ids), when, o)
    ensures !run[at].step.o.Refused? ==> QueuedWritten(run[at].before.rows, StateAt(run, now, at + 1).rows, ids)
  {
    assert Happened(run, now, at, luck(at));
    FetchWrites(run[at].before, pid, q, ids, when, run[at].step.o);
  }

  class Scheduler {
    const world: World
    const pid: Pid

    constructor (world: World, pid: Pid)
      ensures this.world == world && this.pid == pid
    {
      this.world := world;
      this.pid := pid;
    }

    /** A tick is under way, between two items. */
    ghost predicate Between()
      reads this, world
    {
      world.Valid() && pid in world.st.scheds && world.st.scheds[pid].marked.None?
    }

    /** `enqueueNotification`: mark as queued, then publish. It takes the item off the
        batch either way, and on success its snapshot is in its stream; `turn` is the last
        call, on failure the one that failed. */
    method EnqueueNotification(id: Uuid) returns (r: Result<(), SchedulerError>, ghost turn: nat)
      requires Between() && id in world.st.scheds[pid].todo
      modifies world
      ensures Between() && world.st.scheds[pid].todo == Without(old(world.st.scheds[pid].todo), id)
      ensures Extends(old(world.st), world.st) && old(world.run) <= world.run
      ensures r.Success? ==> InStream(world.st, old(world.st.scheds[pid].todo[id]))
      ensures EndedAt(world.run, SchedActor(pid), id, turn, |old(world.run)|, r.Failure?)
      ensures r.Failure? ==> r.error == (if world.run[turn].step.SchedMark? then QueuedStatus else EnqueueFailed)
      ensures r.Success? || r.error == EnqueueFailed ==>
        StatusWritten(world.run, world.st, |old(world.run)|, SchedMark(pid, id, Done), id, Queued, None, None)
    {
      var ok;
      ok, turn := Mark(id);
      if !ok { return Failure(QueuedStatus), turn; }
      ghost var run, s := world.run, world.st;
      r, turn := Publish();
      StillWritten(world.start, run, s, world.run, world.st, world.luck, |old(world.run)|,
                   SchedMark(pid, id, Done), id, Queued, None, None);
    }

    /** The status write before the publish. */
    method Mark(id: Uuid) returns (ok: bool, ghost turn: nat)
      requires Between() && id in world.st.scheds[pid].todo
      modifies world
      ensures world.Valid() && Inv(world.st) && pid in world.st.scheds && old(world.run) <= world.run
      ensures Extends(old(world.st), world.st)
      ensures var todo := old(world.st.scheds[pid].todo);
        world.st.scheds[pid] == if ok then Sched(todo, Some(id)) else Sched(Without(todo, id), None)
      ensures !ok ==>
        && EndedAt(world.run, SchedActor(pid), id, turn, |old(world.run)|, true)
        && world.run[turn].step.SchedMark?
      ensures ok ==>
        StatusWritten(world.run, world.st, |old(world.run)|, SchedMark(pid, id, Done), id, Queued, None, None)
    {
      world.Others(SchedActor(pid));
      var o := world.Outcome();
      turn := |world.run|;
      SchedMarkEffect(world.st, pid, id, o);
      SchedMarkWrites(world.st, pid, id, o);
      ghost var run, s := world.run, world.st;
      assert SchedOk(s, s.scheds[pid]);
      world.Do(SchedMark(pid, id, o));
      ok := o.Done?;
      if ok {
        JustWritten(run, s, world.st, SchedMark(pid, id, Done), id, Queued, None, None);
        EarlierWrite(world.run, world.st, |run|, |old(world.run)|, SchedMark(pid, id, Done), id, Queued, None, None);
      }
    }

    /** `producer.Enqueue` of the item just marked. */
    method Publish() returns (r: Result<(), SchedulerError>, ghost turn: nat)
      requires world.Valid() && Inv(world.st) && pid in world.st.scheds && world.st.scheds[pid].marked.Some?
      requires world.st.scheds[pid].marked.value in world.st.scheds[pid].todo
      modifies world
      ensures Between() && old(world.run) <= world.run && Extends(old(world.st), world.st)
      ensures var was := old(world.st.scheds[pid]);
        && world.st.scheds[pid].todo == Without(was.todo, was.marked.value)
        && (r.Success? ==> InStream(world.st, was.todo[was.marked.value]))
        && EndedAt(world.run, SchedActor(pid), was.marked.value, turn, |old(world.run)|, r.Failure?)
      ensures world.run[turn].step.SchedEnqueue? && (r.Failure? ==> r.error == EnqueueFailed)
    {
      world.Others(SchedActor(pid));
      var o := world.Outcome();
      turn := |world.run|;
      SchedEnqueueEffect(world.st, pid, o);
      world.Do(SchedEnqueue(pid, o));
      r := if o.Done? then Success(()) else Failure(EnqueueFailed);
    }

    /** `processScheduledNotifications` and `processRetryNotifications`. Step `at` of the
        run is this tick's transaction: it selects, from the table as it then was, at
        most 100 due rows, earliest first. They are dealt with in this order, and each ends
        up in its stream unless a call made for it fails: `turns` gives every item its last
        call, for a failed one the call that failed. */
    method ProcessReady(q: Query, locked: set<Uuid>)
      returns (r: Result<set<Uuid>, SchedulerError>, ghost at: nat, ghost ids: seq<Uuid>,
               ghost turns: map<Uuid, nat>)
      requires world.Valid() && pid !in world.st.scheds
      modifies world
      ensures world.Valid() && pid !in world.st.scheds && old(world.run) <= world.run
      ensures RowsGrow(old(world.st.rows), world.st.rows)
      ensures |old(world.run)| <= at < |world.run|
      ensures OldestBatch(world.run[at].before.rows, q, old(world.st.now), locked, 100, ids)
      ensures exists o: Outcome :: world.run[at].step == Lifecycle.Fetch(pid, q, ToSet(ids), old(world.st.now), o)
      ensures r.Failure? <==> Fails(world.run[at].step)
      ensures r.Success? ==>
        QueuedWritten(world.run[at].before.rows, StateAt(world.run, world.st, at + 1).rows, ids)
      ensures r.Failure? ==> r.error == FetchFailed
      ensures r.Success? ==> forall i :: 0 <= i < |ids| ==>
        ids[i] in r.value || InStream(world.st, world.run[at].before.rows[ids[i]].(status := Queued))
      ensures r.Success? ==>
        DealtWith(world.run, SchedActor(pid), ids, ToSet(ids), |ids|, r.value, turns, at)
    {
      var now := world.st.now;
      world.Others(SchedActor(pid));
      at := |world.run|;
      r, ids, turns := ProcessNow(q, now, locked);
      FetchedAt(world.start, world.run, world.st, world.luck, at, pid, q, ids, now);
    }

    /** The tick from its transaction on. */
    method ProcessNow(q: Query, now: int, locked: set<Uuid>)
      returns (r: Result<set<Uuid>, SchedulerError>, ghost ids: seq<Uuid>, ghost turns: map<Uuid, nat>)
      requires world.Valid() && pid !in world.st.scheds && now <= world.st.now
      modifies world
      ensures world.Valid() && pid !in world.st.scheds && old(world.run) <= world.run
      ensures RowsGrow(old(world.st.rows), world.st.rows)
      ensures OldestBatch(old(world.st.rows), q, now, locked, 100, ids)
      ensures |old(world.run)| < |world.run|
      ensures exists o: Outcome ::
        && (r.Success? <==> o.Done?)
        && world.run[|old(world.run)|] == Moment(old(world.st), Lifecycle.Fetch(pid, q, ToSet(ids), now, o))
      ensures r.Failure? ==> r.error == FetchFailed
      ensures r.Success? ==> forall i :: 0 <= i < |ids| ==>
        ids[i] in r.value || InStream(world.st, old(world.st.rows)[ids[i]].(status := Queued))
      ensures r.Success? ==>
        DealtWith(world.run, SchedActor(pid), ids, ToSet(ids), |ids|, r.value, turns, |old(world.run)|)
    {
      var batch := Select(world.st.rows, q, now, locked, BATCH_SIZE);
      ids := batch;
      r, turns := FetchAndEnqueue(q, now, batch);
    }

    /** The tick once its batch is determined. */
    method FetchAndEnqueue(q: Query, at: int, batch: seq<Uuid>)
      returns (r: Result<set<Uuid>, SchedulerError>, ghost turns: map<Uuid, nat>)
      requires world.Valid() && pid !in world.st.scheds && at <= world.st.now && Distinct(batch)
      requires forall i :: 0 <= i < |batch| ==> batch[i] in world.st.rows && q.Ready(world.st.rows[batch[i]], at)
      modifies world
      ensures world.Valid() && pid !in world.st.scheds && old(world.run) <= world.run
      ensures RowsGrow(old(world.st.rows), world.st.rows)
      ensures |old(world.run)| < |world.run|
      ensures exists o: Outcome ::
        && (r.Success? <==> o.Done?)
        && world.run[|old(world.run)|] == Moment(old(world.st), Lifecycle.Fetch(pid, q, ToSet(batch), at, o))
      ensures r.Failure? ==> r.error == FetchFailed
      ensures r.Success? ==> forall i :: 0 <= i < |batch| ==>
        batch[i] in r.value || InStream(world.st, old(world.st.rows)[batch[i]].(status := Queued))
      ensures r.Success? ==>
        DealtWith(world.run, SchedActor(pid), batch, ToSet(batch), |batch|, r.value, turns, |old(world.run)|)
    {
      turns := map[];
      var fetched := Fetch(q, at, batch);
      if fetched.Failure? { return Failure(fetched.error), turns; }
      ghost var after, run := world.st, world.run;
      var failed;
      failed, turns := EnqueueBatch(batch);
      assert world.run[|old(world.run)|] == run[|old(world.run)|];
      StillDealt(world.run, world.run, SchedActor(pid), batch, ToSet(batch), |batch|, failed, turns, |run|,
                 |old(world.run)|);
      FetchedArePublished(world.st, old(world.st.rows), batch, after.scheds[pid].todo, failed);
      GrowTwice(old(world.st.rows), after.rows, world.st.rows);
      r := Success(failed);
    }

    /** The transaction that marks the selected rows and returns them. */
    method Fetch(q: Query, at: int, batch: seq<Uuid>) returns (r: Result<(), SchedulerError>)
      requires world.Valid() && pid !in world.st.scheds && at <= world.st.now
      requires forall i :: 0 <= i < |batch| ==> batch[i] in world.st.rows && q.Ready(world.st.rows[batch[i]], at)
      modifies world
      ensures world.Valid() && Extends(old(world.st), world.st)
      ensures exists o: Outcome ::
        && (r.Success? <==> o.Done?)
        && world.run == old(world.run) + [Moment(old(world.st), Lifecycle.Fetch(pid, q, ToSet(batch), at, o))]
      ensures r.Failure? ==> r.error == FetchFailed && pid !in world.st.scheds
      ensures r.Success? ==>
        && Between()
        && world.st.scheds[pid].todo == map id | id in ToSet(batch) :: old(world.st.rows)[id].(status := Queued)
    {
      var o := world.Outcome();
      FetchEffect(world.st, pid, q, batch, at, o);
      world.Do(Lifecycle.Fetch(pid, q, ToSet(batch), at, o));
      r := if o.Done? then Success(()) else Failure(FetchFailed);
    }

    /** The loop of a tick, and its end. */
    method EnqueueBatch(batch: seq<Uuid>) returns (failed: set<Uuid>, ghost turns: map<Uuid, nat>)
      requires Between() && world.st.scheds[pid].todo.Keys == ToSet(batch) && Distinct(batch)
      modifies world
      ensures world.Valid() && pid !in world.st.scheds && old(world.run) <= world.run
      ensures RowsGrow(old(world.st.rows), world.st.rows)
      ensures Published(world.st, old(world.st.scheds[pid].todo), batch, |batch|, failed)
      ensures DealtWith(world.run, SchedActor(pid), batch, ToSet(batch), |batch|, failed, turns, |old(world.run)|)
    {
      ghost var todo := world.st.scheds[pid].todo;
      failed, turns := EnqueueAll(batch);
      ghost var before, run := world.st, world.run;
      world.Do(SchedStop(pid));
      StillPublished(before, world.st, todo, batch, |batch|, failed);
      StillDealt(run, world.run, SchedActor(pid), batch, ToSet(batch), |batch|, failed, turns, |old(world.run)|,
                 |old(world.run)|);
    }

    method EnqueueAll(batch: seq<Uuid>) returns (failed: set<Uuid>, ghost turns: map<Uuid, nat>)
      requires Between() && world.st.scheds[pid].todo.Keys == ToSet(batch) && Distinct(batch)
      modifies world
      ensures Between() && old(world.run) <= world.run && RowsGrow(old(world.st.rows), world.st.rows)
      ensures Published(world.st, old(world.st.scheds[pid].todo), batch, |batch|, failed)
      ensures DealtWith(world.run, SchedActor(pid), batch, ToSet(batch), |batch|, failed, turns, |old(world.run)|)
    {
      ghost var todo := world.st.scheds[pid].todo;
      failed, turns := {}, map[];
      for i := 0 to |batch|
        invariant Between() && old(world.run) <= world.run
        invariant RowsGrow(old(world.st.rows), world.st.rows)
        invariant Remaining(world.st.scheds[pid].todo, todo, batch, i)
        invariant Published(world.st, todo, batch, i, failed)
        invariant DealtWith(world.run, SchedActor(pid), batch, ToSet(batch), i, failed, turns, |old(world.run)|)
      {
        assert batch[i] in ToSet(batch);
        ghost var before := world.st.rows;
        var ok;
        ok, turns := EnqueueItem(batch, i, todo, failed, turns, |old(world.run)|);
        GrowTwice(old(world.st.rows), before, world.st.rows);
        if !ok { failed := failed + {batch[i]}; }
      }
    }

    /** One round of the loop. */
    method EnqueueItem(ids: seq<Uuid>, i: nat, ghost todo: map<Uuid, Notification>, ghost failed: set<Uuid>,
                       ghost turns: map<Uuid, nat>, ghost from: nat)
      returns (ok: bool, ghost turns': map<Uuid, nat>)
      requires Between() && i < |ids| && ids[i] in todo && Distinct(ids) && from <= |world.run|
      requires Remaining(world.st.scheds[pid].todo, todo, ids, i)
      requires Published(world.st, todo, ids, i, failed)
      requires DealtWith(world.run, SchedActor(pid), ids, todo.Keys, i, failed, turns, from)
      modifies world
      ensures Between() && old(world.run) <= world.run && Extends(old(world.st), world.st)
      ensures Remaining(world.st.scheds[pid].todo, todo, ids, i + 1)
      ensures Published(world.st, todo, ids, i + 1, failed + if ok then {} else {ids[i]})
      ensures DealtWith(world.run, SchedActor(pid), ids, todo.Keys, i + 1, failed + if ok then {} else {ids[i]},
                        turns', from)
    {
      ghost var before, left, run := world.st, world.st.scheds[pid].todo, world.run;
      var r, turn := EnqueueNotification(ids[i]);
      RemainingNext(left, todo, ids, i);
      StillPublished(before, world.st, todo, ids, i, failed);
      DealtNext(run, world.run, SchedActor(pid), ids, todo.Keys, i, failed, turns, from, r.Success?, turn);
      ok, turns' := r.Success?, turns[ids[i] := turn];
    }
  }
}
