/** The `notifications` table and its atomic statements
    (internal/infrastructure/postgres/notification_repository.go). */
module NotificationTable {
  import opened Wrappers
  import opened Entity

  type Table = map<Uuid, Notification>

  datatype DbError = NotFound | DuplicateKey

  /** Primary key and UNIQUE (idempotency_key). */
  ghost predicate KeysUnique(t: Table) {
    && (forall id :: id in t ==> t[id].id == id)
    && forall a, b :: a in t && b in t && t[a].idempotencyKey == t[b].idempotencyKey ==> a == b
  }

  predicate Conflicts(t: Table, n: Notification) {
    n.id in t || exists id :: id in t && t[id].idempotencyKey == n.idempotencyKey
  }

  /** One multi-row INSERT: every row goes in or none does. */
  function Insert(t: Table, ns: seq<Notification>): Result<Table, DbError>
    decreases |ns|
  {
    if ns == [] then Success(t)
    else if Conflicts(t, ns[0]) then Failure(DuplicateKey)
    else Insert(t[ns[0].id := ns[0]], ns[1..])
  }

  function Coalesce(x: Option<string>, y: Option<string>): Option<string> {
    if x.Some? then x else y
  }

  /** `UpdateStatus`: unconditional, and it never clears the provider message id. */
  function SetStatus(t: Table, id: Uuid, status: Status, providerMsgId: Option<string>, errMsg: Option<string>): Table {
    if id in t then
      t[id := t[id].(status := status,
                     providerMessageId := Coalesce(providerMsgId, t[id].providerMessageId),
                     errorMessage := Coalesce(errMsg, t[id].errorMessage))]
    else t
  }

  predicate Cancellable(t: Table, id: Uuid) {
    id in t && (t[id].status == Pending || t[id].status == Queued)
  }

  function CancelRow(t: Table, id: Uuid): Table {
    if Cancellable(t, id) then t[id := t[id].(status := Cancelled)] else t
  }

  function Increment(t: Table, id: Uuid, next: Option<int>, now: int): Table {
    if id in t then
      t[id := t[id].(attempts := t[id].attempts + 1, lastAttemptAt := Some(now), nextRetryAt := next)]
    else t
  }

  /** The two queries of the scheduler. */
  datatype Query = ScheduledQuery | RetryQuery {
    predicate Ready(n: Notification, now: int) {
      match this
      case ScheduledQuery => n.status == Pending && n.scheduledAt.Some? && n.scheduledAt.value <= now
      case RetryQuery =>
        && n.status == Failed && n.nextRetryAt.Some? && n.nextRetryAt.value <= now
        && n.attempts < n.maxAttempts
    }

    /** The column of ORDER BY. */
    function Due(n: Notification): int {
      match this
      case ScheduledQuery => if n.scheduledAt.Some? then n.scheduledAt.value else 0
      case RetryQuery => if n.nextRetryAt.Some? then n.nextRetryAt.value else 0
    }
  }

  function MarkQueued(t: Table, ids: set<Uuid>): Table {
    map id | id in t :: if id in ids then t[id].(status := Queued) else t[id]
  }

  // ---------------------------------------------------- INSERT properties

  function Ids(ns: seq<Notification>): set<Uuid> {
    set i | 0 <= i < |ns| :: ns[i].id
  }

  ghost predicate DistinctIds(ns: seq<Notification>) {
    forall i, j :: 0 <= i < j < |ns| ==> ns[i].id != ns[j].id
  }

  // ------------------------------------------- the statements in columns

  /** One row gets a new status, and a provider message id and an error where given;
      its other columns and all other rows stay. */
  ghost predicate RowWritten(t: Table, t': Table, id: Uuid, status: Status,
                             providerId: Option<string>, error: Option<string>) {
    && id in t && t'.Keys == t.Keys
    && (forall x :: x in t && x != id ==> t'[x] == t[x])
    && t'[id] == t[id].(status := status,
                        providerMessageId := if providerId.Some? then providerId else t[id].providerMessageId,
                        errorMessage := if error.Some? then error else t[id].errorMessage)
  }

  /** One row counts one more attempt, made at `now`, and its retry time is replaced. */
  ghost predicate AttemptWritten(t: Table, t': Table, id: Uuid, next: Option<int>, now: int) {
    && id in t && t'.Keys == t.Keys
    && (forall x :: x in t && x != id ==> t'[x] == t[x])
    && t'[id] == t[id].(attempts := t[id].attempts + 1, lastAttemptAt := Some(now), nextRetryAt := next)
  }

  /** Exactly the listed rows get the status `queued`. */
  ghost predicate QueuedWritten(t: Table, t': Table, ids: seq<Uuid>) {
    && t'.Keys == t.Keys && (forall i :: 0 <= i < |ids| ==> ids[i] in t)
    && forall x :: x in t ==> t'[x] == if x in ids then t[x].(status := Queued) else t[x]
  }

  /** A pending row whose send time has come. */
  ghost predicate ScheduledDue(n: Notification, now: int) {
    n.status == Pending && n.scheduledAt.Some? && n.scheduledAt.value <= now
  }

  /** A failed row whose retry time has come and that has attempts left. */
  ghost predicate RetryDueNow(n: Notification, now: int) {
    n.status == Failed && n.nextRetryAt.Some? && n.nextRetryAt.value <= now && n.attempts < n.maxAttempts
  }

  /** Up to `limit` unlocked scheduled rows that are due, the earliest send time first;
      one is left out only when the limit is reached by rows that are not later. */
  ghost predicate ScheduledBatch(t: Table, now: int, locked: set<Uuid>, limit: nat, ids: seq<Uuid>) {
    && |ids| <= limit
    && (forall i :: 0 <= i < |ids| ==> ids[i] in t && ids[i] !in locked && ScheduledDue(t[ids[i]], now))
    && (forall i, j :: 0 <= i < j < |ids| ==>
          ids[i] != ids[j] && t[ids[i]].scheduledAt.value <= t[ids[j]].scheduledAt.value)
    && (forall id :: id in t && id !in locked && ScheduledDue(t[id], now) && id !in ids ==>
          |ids| == limit
          && forall i :: 0 <= i < |ids| ==> t[ids[i]].scheduledAt.value <= t[id].scheduledAt.value)
  }

  /** The same for retries, the earliest retry time first. */
  ghost predicate RetryBatch(t: Table, now: int, locked: set<Uuid>, limit: nat, ids: seq<Uuid>) {
    && |ids| <= limit
    && (forall i :: 0 <= i < |ids| ==> ids[i] in t && ids[i] !in locked && RetryDueNow(t[ids[i]], now))
    && (forall i, j :: 0 <= i < j < |ids| ==>
          ids[i] != ids[j] && t[ids[i]].nextRetryAt.value <= t[ids[j]].nextRetryAt.value)
    && (forall id :: id in t && id !in locked && RetryDueNow(t[id], now) && id !in ids ==>
          |ids| == limit
          && forall i :: 0 <= i < |ids| ==> t[ids[i]].nextRetryAt.value <= t[id].nextRetryAt.value)
  }

  /** The oldest due rows, by the query's own column. */
  ghost predicate OldestBatch(t: Table, q: Query, now: int, locked: set<Uuid>, limit: nat, ids: seq<Uuid>) {
    match q
    case ScheduledQuery => ScheduledBatch(t, now, locked, limit, ids)
    case RetryQuery => RetryBatch(t, now, locked, limit, ids)
  }

  /** The update of one row in columns. */
  lemma SetStatusWrites(t: Table, id: Uuid, status: Status, providerId: Option<string>, error: Option<string>)
    ensures id in t ==> RowWritten(t, SetStatus(t, id, status, providerId, error), id, status, providerId, error)
    ensures id !in t ==> SetStatus(t, id, status, providerId, error) == t
  {
  }

  lemma IncrementWrites(t: Table, id: Uuid, next: Option<int>, now: int)
    ensures id in t ==> AttemptWritten(t, Increment(t, id, next, now), id, next, now)
    ensures id !in t ==> Increment(t, id, next, now) == t
  {
  }

  lemma MarkQueuedWrites(t: Table, ids: seq<Uuid>)
    requires forall i :: 0 <= i < |ids| ==> ids[i] in t
    ensures QueuedWritten(t, MarkQueued(t, ToSet(ids)), ids)
  {
    forall x | x in t ensures x in ToSet(ids) <==> x in ids {
      if x in ids {
        var i :| 0 <= i < |ids| && ids[i] == x;
      }
    }
  }

  /** A cancel takes exactly pending and queued rows. */
  lemma CancelWrites(t: Table, id: Uuid)
    ensures Cancellable(t, id) <==> id in t && t[id].status in {Pending, Queued}
    ensures Cancellable(t, id) ==> RowWritten(t, CancelRow(t, id), id, Cancelled, None, None)
    ensures !Cancellable(t, id) ==> CancelRow(t, id) == t
  {
  }

  /** Statements that keep ids and keys keep them unique. */
  lemma SameKeysUnique(t: Table, t': Table)
    requires KeysUnique(t) && t'.Keys == t.Keys
    requires forall id :: id in t ==> t'[id].id == t[id].id && t'[id].idempotencyKey == t[id].idempotencyKey
    ensures KeysUnique(t')
  {
    forall a, b | a in t' && b in t' && t'[a].idempotencyKey == t'[b].idempotencyKey ensures a == b {
      assert t[a].idempotencyKey == t[b].idempotencyKey;
    }
  }

  /** A successful INSERT adds exactly the given rows, all of them new, and keeps
      both keys unique. */
  lemma {:induction false} InsertAddsExactly(t: Table, ns: seq<Notification>)
    requires Insert(t, ns).Success?
    ensures Insert(t, ns).value.Keys == t.Keys + Ids(ns)
    ensures forall id :: id in t ==> Insert(t, ns).value[id] == t[id]
    ensures forall i :: 0 <= i < |ns| ==> ns[i].id !in t && Insert(t, ns).value[ns[i].id] == ns[i]
    ensures DistinctIds(ns)
    ensures KeysUnique(t) ==> KeysUnique(Insert(t, ns).value)
    decreases |ns|
  {
    if ns == [] {
      assert Ids(ns) == {};
    } else {
      var n, rest := ns[0], ns[1..];
      InsertAddsExactly(t[n.id := n], rest);
      IdsOfCons(ns);
      forall i | 1 <= i < |ns| ensures ns[i] == rest[i - 1] && ns[i].id !in t[n.id := n] {}
    }
  }

  lemma IdsOfCons(ns: seq<Notification>)
    requires ns != []
    ensures Ids(ns) == {ns[0].id} + Ids(ns[1..])
  {
    forall id | id in {ns[0].id} + Ids(ns[1..]) ensures id in Ids(ns) {
      if id != ns[0].id {
        var i :| 0 <= i < |ns[1..]| && ns[1..][i].id == id;
        assert ns[i + 1].id == id;
      }
    }
    forall id | id in Ids(ns) ensures id in {ns[0].id} + Ids(ns[1..]) {
      var i :| 0 <= i < |ns| && ns[i].id == id;
      if i > 0 { assert ns[1..][i - 1].id == id; }
    }
  }

  /** An INSERT is refused exactly when some row repeats a primary or idempotency
      key of the table or of an earlier row of the same statement. */
  ghost predicate Repeats(t: Table, ns: seq<Notification>, i: nat)
    requires i < |ns|
  {
    || ns[i].id in t
    || (exists id :: id in t && t[id].idempotencyKey == ns[i].idempotencyKey)
    || exists j :: 0 <= j < i && (ns[j].id == ns[i].id || ns[j].idempotencyKey == ns[i].idempotencyKey)
  }

  lemma {:induction false} InsertRefusedIffRepeated(t: Table, ns: seq<Notification>)
    requires KeysUnique(t)
    ensures Insert(t, ns).Failure? <==> exists i :: 0 <= i < |ns| && Repeats(t, ns, i)
    decreases |ns|
  {
    if ns != [] && !Conflicts(t, ns[0]) {
      var n, rest := ns[0], ns[1..];
      var t' := t[n.id := n];
      InsertRefusedIffRepeated(t', rest);
      forall i | 0 <= i < |rest| ensures Repeats(t', rest, i) <==> Repeats(t, ns, i + 1) {
        RepeatsShift(t, ns, i);
      }
      if i :| 0 <= i < |rest| && Repeats(t', rest, i) {
        assert Repeats(t, ns, i + 1);
      }
      if i :| 0 <= i < |ns| && Repeats(t, ns, i) {
        assert i > 0;
        assert Repeats(t', rest, i - 1);
      }
    } else if ns != [] {
      assert Repeats(t, ns, 0);
    }
  }

  lemma RepeatsShift(t: Table, ns: seq<Notification>, i: nat)
    requires ns != [] && i < |ns| - 1 && !Conflicts(t, ns[0])
    ensures Repeats(t[ns[0].id := ns[0]], ns[1..], i) <==> Repeats(t, ns, i + 1)
  {
    var n, rest, t' := ns[0], ns[1..], t[ns[0].id := ns[0]];
    var m := ns[i + 1];
    assert rest[i] == m;
    if Conflicts(t', m) && !Conflicts(t, m) {
      assert n.id == m.id || n.idempotencyKey == m.idempotencyKey;
    }
    if n.idempotencyKey == m.idempotencyKey { assert t'[n.id].idempotencyKey == m.idempotencyKey; }
    if Conflicts(t, m) && m.id !in t {
      var id :| id in t && t[id].idempotencyKey == m.idempotencyKey;
      assert t'[id].idempotencyKey == m.idempotencyKey;
    }
    if j :| 0 <= j < i && (rest[j].id == m.id || rest[j].idempotencyKey == m.idempotencyKey) {
      assert ns[j + 1] == rest[j];
    }
    if j :| 0 <= j < i + 1 && (ns[j].id == m.id || ns[j].idempotencyKey == m.idempotencyKey) {
      if j > 0 { assert rest[j - 1] == ns[j]; }
    }
  }

  // ------------------------------------------------------ SELECT semantics

  /** The rows that `SELECT ... FOR UPDATE SKIP LOCKED` may return. */
  function Candidates(t: Table, q: Query, now: int, locked: set<Uuid>): set<Uuid> {
    set id | id in t && id !in locked && q.Ready(t[id], now)
  }

  /** ORDER BY due time, LIMIT, SKIP LOCKED. */
  ghost predicate IsSelection(t: Table, q: Query, now: int, locked: set<Uuid>, limit: nat, ids: seq<Uuid>) {
    var all := Candidates(t, q, now, locked);
    && |ids| <= limit
    && (forall i :: 0 <= i < |ids| ==> ids[i] in all)
    && (forall i, j :: 0 <= i < j < |ids| ==> ids[i] != ids[j] && q.Due(t[ids[i]]) <= q.Due(t[ids[j]]))
    && (|ids| < limit ==> forall id :: id in all ==> id in ids)
    && (forall id, i :: id in all && id !in ids && 0 <= i < |ids| ==> q.Due(t[ids[i]]) <= q.Due(t[id]))
  }

  /** What the selection means in columns. */
  lemma SelectionIsOldest(t: Table, q: Query, now: int, locked: set<Uuid>, limit: nat, ids: seq<Uuid>)
    requires IsSelection(t, q, now, locked, limit, ids)
    ensures OldestBatch(t, q, now, locked, limit, ids)
  {
    var all := Candidates(t, q, now, locked);
    forall i | 0 <= i < |ids| ensures ids[i] in t && ids[i] !in locked && q.Ready(t[ids[i]], now) {
      assert ids[i] in all;
    }
    forall id | id in t && id !in locked && q.Ready(t[id], now) ensures id in all {}
  }

  /** A candidate that is due first. */
  method Earliest(t: Table, q: Query, all: set<Uuid>) returns (best: Uuid)
    requires all != {} && all <= t.Keys
    ensures best in all && forall id :: id in all ==> q.Due(t[best]) <= q.Due(t[id])
  {
    assert (forall id :: id !in all) ==> all == {};
    best :| best in all;
    var rest := all - {best};
    while rest != {}
      invariant rest <= all && best in all
      invariant forall id :: id in all && id !in rest ==> q.Due(t[best]) <= q.Due(t[id])
      decreases rest
    {
      assert (forall id :: id !in rest) ==> rest == {};
      var id :| id in rest;
      if q.Due(t[id]) < q.Due(t[best]) { best := id; }
      rest := rest - {id};
    }
  }

  method Select(t: Table, q: Query, now: int, locked: set<Uuid>, limit: nat) returns (ids: seq<Uuid>)
    ensures IsSelection(t, q, now, locked, limit, ids) && OldestBatch(t, q, now, locked, limit, ids)
  {
    ids := [];
    var all := Candidates(t, q, now, locked);
    var left := all;
    while |ids| < limit && left != {}
      invariant |ids| <= limit && left <= all
      invariant forall i :: 0 <= i < |ids| ==> ids[i] in all && ids[i] !in left
      invariant forall id :: id in all ==> id in left || id in ids
      invariant forall i, j :: 0 <= i < j < |ids| ==> ids[i] != ids[j] && q.Due(t[ids[i]]) <= q.Due(t[ids[j]])
      invariant forall id, i :: id in left && 0 <= i < |ids| ==> q.Due(t[ids[i]]) <= q.Due(t[id])
      decreases left
    {
      var id := Earliest(t, q, left);
      ids := ids + [id];
      left := left - {id};
    }
    SelectionIsOldest(t, q, now, locked, limit, ids);
  }

  function ToSet(ids: seq<Uuid>): set<Uuid> {
    set i | 0 <= i < |ids| :: ids[i]
  }

  // ------------------------------------------------------------ the class

  class NotificationRepository {
    var rows: Table

    constructor ()
      ensures rows == map[]
    {
      rows := map[];
    }

    method Create(n: Notification) returns (r: Result<(), DbError>)
      modifies this
      ensures r.Failure? <==>
        n.id in old(rows) || exists id :: id in old(rows) && old(rows)[id].idempotencyKey == n.idempotencyKey
      ensures r.Success? <==> !Conflicts(old(rows), n)
      ensures rows == if r.Success? then old(rows)[n.id := n] else old(rows)
    {
      if n.id in rows || exists id :: id in rows && rows[id].idempotencyKey == n.idempotencyKey {
        return Failure(DuplicateKey);
      }
      rows := rows[n.id := n];
      r := Success(());
    }

    /** The statement is built row by row and takes effect as a whole or not at all. */
    method CreateBatch(ns: seq<Notification>) returns (r: Result<(), DbError>)
      modifies this
      ensures r.Success? <==> Insert(old(rows), ns).Success?
      ensures rows == if r.Success? then Insert(old(rows), ns).value else old(rows)
    {
      var tx := rows;
      var i := 0;
      while i < |ns|
        invariant 0 <= i <= |ns|
        invariant rows == old(rows)
        invariant Insert(tx, ns[i..]) == Insert(rows, ns)
      {
        assert ns[i..][0] == ns[i] && ns[i..][1..] == ns[i + 1..];
        if Conflicts(tx, ns[i]) { return Failure(DuplicateKey); }
        tx := tx[ns[i].id := ns[i]];
        i := i + 1;
      }
      rows := tx;
      r := Success(());
    }

    method GetByID(id: Uuid) returns (r: Result<Notification, DbError>)
      ensures r == if id in rows then Success(rows[id]) else Failure(NotFound)
    {
      if id in rows { return Success(rows[id]); }
      r := Failure(NotFound);
    }

    method UpdateStatus(id: Uuid, status: Status, providerMsgId: Option<string>, errMsg: Option<string>)
      returns (r: Result<(), DbError>)
      modifies this
      ensures rows == SetStatus(old(rows), id, status, providerMsgId, errMsg)
      ensures r == if id in old(rows) then Success(()) else Failure(NotFound)
      ensures r.Success? ==> RowWritten(old(rows), rows, id, status, providerMsgId, errMsg)
      ensures r.Failure? ==> rows == old(rows)
    {
      if id !in rows { return Failure(NotFound); }
      var row := rows[id].(status := status);
      if providerMsgId.Some? { row := row.(providerMessageId := providerMsgId); }
      if errMsg.Some? { row := row.(errorMessage := errMsg); }
      rows := rows[id := row];
      r := Success(());
    }

    method Cancel(id: Uuid) returns (r: Result<(), DbError>)
      modifies this
      ensures rows == CancelRow(old(rows), id)
      ensures r == if id in old(rows) && old(rows)[id].status in {Pending, Queued} then Success(())
                   else Failure(NotFound)
      ensures r.Success? ==> RowWritten(old(rows), rows, id, Cancelled, None, None)
      ensures r.Failure? ==> rows == old(rows)
    {
      if !(id in rows && rows[id].status in {Pending, Queued}) { return Failure(NotFound); }
      rows := rows[id := rows[id].(status := Cancelled)];
      r := Success(());
    }

    method IncrementAttempts(id: Uuid, next: Option<int>, now: int) returns (r: Result<(), DbError>)
      modifies this
      ensures rows == Increment(old(rows), id, next, now)
      ensures r == if id in old(rows) then Success(()) else Failure(NotFound)
      ensures r.Success? ==> AttemptWritten(old(rows), rows, id, next, now)
      ensures r.Failure? ==> rows == old(rows)
    {
      if id !in rows { return Failure(NotFound); }
      rows := rows[id := rows[id].(attempts := rows[id].attempts + 1, lastAttemptAt := Some(now), nextRetryAt := next)];
      r := Success(());
    }

    /** `FetchScheduledReady` and `FetchRetryReady` in one transaction each: select,
        mark as queued, and return the entities with their status patched. */
    method FetchReady(q: Query, now: int, limit: nat, locked: set<Uuid>)
      returns (batch: seq<Notification>, ghost ids: seq<Uuid>)
      modifies this
      ensures IsSelection(old(rows), q, now, locked, limit, ids)
      ensures OldestBatch(old(rows), q, now, locked, limit, ids)
      ensures rows == MarkQueued(old(rows), ToSet(ids)) && QueuedWritten(old(rows), rows, ids)
      ensures |batch| == |ids|
      ensures forall i :: 0 <= i < |ids| ==> ids[i] in rows && batch[i] == rows[ids[i]]
    {
      var table := rows;
      var selected := Select(table, q, now, locked, limit);
      ids := selected;
      batch := seq(|selected|, i requires 0 <= i < |selected| => table[selected[i]]);
      if |batch| > 0 {
        rows := MarkQueued(rows, ToSet(selected));
        var i := 0;
        while i < |batch|
          invariant 0 <= i <= |batch| == |selected|
          invariant forall j :: 0 <= j < i ==> batch[j] == table[selected[j]].(status := Queued)
          invariant forall j :: i <= j < |batch| ==> batch[j] == table[selected[j]]
        {
          batch := batch[i := batch[i].(status := Queued)];
          i := i + 1;
        }
        forall j | 0 <= j < |ids| ensures batch[j] == rows[ids[j]] {
          assert ids[j] in ToSet(ids);
        }
      } else {
        assert rows == MarkQueued(rows, ToSet(ids));
      }
      MarkQueuedWrites(table, ids);
    }
  }
}
