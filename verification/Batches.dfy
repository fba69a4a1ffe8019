/** The loop that enqueues a batch item by item, as a scheduler tick and `CreateBatch`
    both run it: how far it is, and which calls its failures are due to. */
module Batches {
  import opened Wrappers
  import opened Entity
  import opened NotificationTable
  import opened Lifecycle
  import opened LifecycleSteps
  import opened Runtime

  ghost predicate Distinct(ids: seq<Uuid>) {
    forall i, j :: 0 <= i < j < |ids| ==> ids[i] != ids[j]
  }

  /** The items from index `i` on have yet to be enqueued. */
  ghost predicate Remaining(left: map<Uuid, Notification>, todo: map<Uuid, Notification>, ids: seq<Uuid>, i: nat) {
    forall j :: i <= j < |ids| && ids[j] in todo ==> ids[j] in left && left[ids[j]] == todo[ids[j]]
  }

  /** Those before index `k` are in their stream unless they failed. */
  ghost predicate Published(s: State, todo: map<Uuid, Notification>, ids: seq<Uuid>, k: nat, failed: set<Uuid>)
    requires k <= |ids|
  {
    forall j :: 0 <= j < k && ids[j] in todo ==> ids[j] in failed || InStream(s, todo[ids[j]])
  }

  lemma RemainingNext(left: map<Uuid, Notification>, todo: map<Uuid, Notification>, ids: seq<Uuid>, i: nat)
    requires Distinct(ids) && i < |ids| && Remaining(left, todo, ids, i)
    ensures Remaining(Without(left, ids[i]), todo, ids, i + 1)
  {
  }

  lemma StillPublished(s: State, s': State, todo: map<Uuid, Notification>, ids: seq<Uuid>, k: nat, failed: set<Uuid>)
    requires k <= |ids| && Extends(s, s') && Published(s, todo, ids, k, failed)
    ensures Published(s', todo, ids, k, failed)
  {
    forall j | 0 <= j < k && ids[j] in todo && ids[j] !in failed ensures InStream(s', todo[ids[j]]) {
      InStreamKept(s, s', todo[ids[j]]);
    }
  }

  /** Step `t` of the run is the last call of `me` for `id`: the one that failed, or the one
      that completed its enqueue. */
  ghost predicate EndedAt(run: seq<Moment>, me: Actor, id: Uuid, t: nat, from: nat, failed: bool) {
    && from <= t < |run| && ActorOf(run[t].step) == me && ItemOf(run[t]) == Some(id)
    && (failed <==> Fails(run[t].step))
    && (!failed ==> run[t].step.SchedEnqueue? || run[t].step.CreatorMark?)
  }

  /** Of the first `n` items those that are `due` have been dealt with in their order, each
      in the turn given, and no others have failed. */
  ghost predicate DealtWith(run: seq<Moment>, me: Actor, ids: seq<Uuid>, due: set<Uuid>, n: nat, failed: set<Uuid>,
                            turns: map<Uuid, nat>, from: nat)
    requires n <= |ids|
  {
    && (forall j :: 0 <= j < n && ids[j] in due ==>
          ids[j] in turns && EndedAt(run, me, ids[j], turns[ids[j]], from, ids[j] in failed))
    && (forall i, j :: 0 <= i < j < n && ids[i] in due && ids[j] in due ==> turns[ids[i]] < turns[ids[j]])
    && (forall id :: id in failed ==> exists j :: 0 <= j < n && ids[j] == id)
  }

  lemma StillDealt(run: seq<Moment>, later: seq<Moment>, me: Actor, ids: seq<Uuid>, due: set<Uuid>, n: nat,
                   failed: set<Uuid>, turns: map<Uuid, nat>, from: nat, earlier: nat)
    requires n <= |ids| && run <= later && earlier <= from
    requires DealtWith(run, me, ids, due, n, failed, turns, from)
    ensures DealtWith(later, me, ids, due, n, failed, turns, earlier)
  {
    forall j | 0 <= j < n && ids[j] in due
      ensures ids[j] in turns && EndedAt(later, me, ids[j], turns[ids[j]], earlier, ids[j] in failed)
    {
      assert EndedAt(run, me, ids[j], turns[ids[j]], from, ids[j] in failed);
    }
  }

  lemma DealtNext(run: seq<Moment>, later: seq<Moment>, me: Actor, ids: seq<Uuid>, due: set<Uuid>, i: nat,
                  failed: set<Uuid>, turns: map<Uuid, nat>, from: nat, ok: bool, turn: nat)
    requires Distinct(ids) && i < |ids| && ids[i] in due && run <= later && from <= |run|
    requires DealtWith(run, me, ids, due, i, failed, turns, from)
    requires EndedAt(later, me, ids[i], turn, |run|, !ok)
    ensures DealtWith(later, me, ids, due, i + 1, failed + (if ok then {} else {ids[i]}), turns[ids[i] := turn], from)
  {
    StillDealt(run, later, me, ids, due, i, failed, turns, from, from);
    var failed', turns' := failed + (if ok then {} else {ids[i]}), turns[ids[i] := turn];
    assert ids[i] !in failed;
    forall j | 0 <= j < i + 1 && ids[j] in due
      ensures ids[j] in turns' && EndedAt(later, me, ids[j], turns'[ids[j]], from, ids[j] in failed')
    {
      if j < i { assert EndedAt(later, me, ids[j], turns[ids[j]], from, ids[j] in failed); }
    }
    forall j | 0 <= j < i && ids[j] in due ensures turns'[ids[j]] < turn {
      assert EndedAt(run, me, ids[j], turns[ids[j]], from, ids[j] in failed);
    }
  }

  lemma DealtSkip(run: seq<Moment>, me: Actor, ids: seq<Uuid>, due: set<Uuid>, i: nat, failed: set<Uuid>,
                  turns: map<Uuid, nat>, from: nat)
    requires i < |ids| && ids[i] !in due && DealtWith(run, me, ids, due, i, failed, turns, from)
    ensures DealtWith(run, me, ids, due, i + 1, failed, turns, from)
  {
  }

  /** An item that is not to be enqueued is passed over. */
  lemma PassedOver(s: State, left: map<Uuid, Notification>, todo: map<Uuid, Notification>, failed: set<Uuid>,
                   ids: seq<Uuid>, i: nat)
    requires i < |ids| && ids[i] !in todo
    requires Remaining(left, todo, ids, i) && Published(s, todo, ids, i, failed)
    ensures Remaining(left, todo, ids, i + 1) && Published(s, todo, ids, i + 1, failed)
  {
  }

  lemma GrowTwice(t: Table, t': Table, t'': Table)
    requires RowsGrow(t, t') && RowsGrow(t', t'')
    ensures RowsGrow(t, t'')
  {
  }
}
