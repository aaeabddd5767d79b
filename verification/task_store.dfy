/**
 The durable task table (ai_bridge/store.py). `TaskTable` gives the meaning of each SQL
 statement on a map from id to record; `TaskStores.TaskStore` is the store object whose
 methods change that map in place.
 */
module TaskTable {
  import opened Wrappers
  import opened TaskStates

  type Table = map<TaskId, TaskRecord>

  /** INSERT ... ON CONFLICT(task_id) DO UPDATE: every column but created_at is overwritten. */
  function Put(table: Table, task: TaskRecord): Table {
    if task.taskId in table then table[task.taskId := task.(createdAt := table[task.taskId].createdAt)]
    else table[task.taskId := task]
  }

  /** Some row holds this key; NULL keys never collide, the empty string does. */
  predicate KeyHeld(table: Table, key: Option<string>) {
    key.Some? && exists id :: id in table && table[id].idempotencyKey == key
  }

  /** The UNIQUE column refuses the row: another row already holds its key. */
  predicate Conflicts(table: Table, task: TaskRecord) {
    task.idempotencyKey.Some?
    && exists id :: id in table && id != task.taskId && table[id].idempotencyKey == task.idempotencyKey
  }

  ghost predicate KeysUnique(table: Table) {
    forall i, j :: i in table && j in table && i != j && table[i].idempotencyKey.Some? ==>
      table[i].idempotencyKey != table[j].idempotencyKey
  }

  ghost predicate KeyedById(table: Table) {
    forall id :: id in table ==> table[id].taskId == id
  }

  /** The ids of rows in the given states, for one worker when a worker is given. */
  function IdsIn(table: Table, states: set<TaskState>, worker: Option<WorkerId>): set<TaskId> {
    set id | id in table && table[id].state in states && (worker.None? || table[id].workerId == worker.value)
  }

  /** SELECT COUNT(*) ... WHERE state IN (...) [AND worker_id = ?]. */
  function CountByStates(table: Table, states: set<TaskState>, worker: Option<WorkerId>): nat {
    |IdsIn(table, states, worker)|
  }

  const RECOVERABLE_STATES: set<TaskState> := {Pending, Running, Retrying, Recovering}

  /** The states a restart recovers are exactly the open ones. */
  lemma OpenMeansRecoverable(state: TaskState)
    ensures state in RECOVERABLE_STATES <==> !Terminal(state)
  {
    match state {
      case Pending | Running | Recovering | Retrying =>
      case Completed | Failed | Cancelled | TimedOut =>
    }
  }

  /** What `mark_recovering` does to one row. */
  function Marked(task: TaskRecord, now: Time): TaskRecord {
    if task.state in RECOVERABLE_STATES && task.state != Pending then
      task.(state := Recovering, updatedAt := now, dispatchAttemptId := None)
    else task
  }

  /** The rows with these ids marked, the others as they were. */
  ghost function MarkIds(table: Table, ids: set<TaskId>, now: Time): (marked: Table)
    requires ids <= table.Keys
    ensures marked.Keys == table.Keys
    ensures forall id :: id in table ==> marked[id] == if id in ids then Marked(table[id], now) else table[id]
    decreases |ids|
  {
    if ids == {} then table
    else
      var id :| id in ids;
      MarkIds(table, ids - {id}, now)[id := Marked(table[id], now)]
  }

  /** `mark_recovering` on the whole table. */
  ghost function MarkRecovering(table: Table, now: Time): (marked: Table)
    ensures marked.Keys == table.Keys
    ensures forall id :: id in table ==> marked[id] == Marked(table[id], now)
  {
    MarkIds(table, table.Keys, now)
  }

  // ----- Facts about single writes -----

  lemma PutSameKeyNeverConflicts(table: Table, task: TaskRecord)
    requires KeysUnique(table) && task.taskId in table && table[task.taskId].idempotencyKey == task.idempotencyKey
    ensures !Conflicts(table, task)
    ensures KeysUnique(Put(table, task))
  {
  }

  lemma PutKeepsKeysUnique(table: Table, task: TaskRecord)
    requires KeysUnique(table) && !Conflicts(table, task)
    ensures KeysUnique(Put(table, task))
  {
  }

  lemma MarkKeepsKeys(table: Table, now: Time)
    requires KeysUnique(table)
    ensures KeysUnique(MarkRecovering(table, now))
  {
  }
}

module TaskStores {
  import opened Wrappers
  import opened TaskStates
  import opened TaskTable

  // ----- Listings -----

  /** A listing shows each chosen row exactly once. */
  ghost predicate Listing(tasks: seq<TaskRecord>, rows: Table, ids: set<TaskId>) {
    (forall i :: 0 <= i < |tasks| ==>
      tasks[i].taskId in ids && tasks[i].taskId in rows && rows[tasks[i].taskId] == tasks[i])
    && (forall i, j :: 0 <= i < j < |tasks| ==> tasks[i].taskId != tasks[j].taskId)
    && (forall id :: id in ids ==> exists i :: 0 <= i < |tasks| && tasks[i].taskId == id)
  }

  lemma ListingExtend(tasks: seq<TaskRecord>, rows: Table, ids: set<TaskId>, id: TaskId)
    requires Listing(tasks, rows, ids) && id !in ids && id in rows && rows[id].taskId == id
    ensures Listing(tasks + [rows[id]], rows, ids + {id})
  {
    var more := tasks + [rows[id]];
    forall other | other in ids + {id} ensures exists i :: 0 <= i < |more| && more[i].taskId == other {
      if other == id {
        assert more[|tasks|].taskId == id;
      } else {
        var i :| 0 <= i < |tasks| && tasks[i].taskId == other;
        assert more[i] == tasks[i];
      }
    }
  }

  lemma ListingTakes(tasks: seq<TaskRecord>, rows: Table, all: set<TaskId>, left: set<TaskId>, id: TaskId)
    requires Listing(tasks, rows, all - left) && left <= all && id in left && id in rows && rows[id].taskId == id
    ensures Listing(tasks + [rows[id]], rows, all - (left - {id}))
  {
    ListingExtend(tasks, rows, all - left, id);
    assert all - (left - {id}) == (all - left) + {id};
  }

  /** A listing with the same ids in the same order, of the rows as they are now, is a listing again. */
  lemma ListingRenamed(tasks: seq<TaskRecord>, before: Table, updated: seq<TaskRecord>, rows: Table, ids: set<TaskId>)
    requires Listing(tasks, before, ids) && |updated| == |tasks|
    requires forall i :: 0 <= i < |tasks| ==>
      updated[i].taskId == tasks[i].taskId && updated[i].taskId in rows && rows[updated[i].taskId] == updated[i]
    ensures Listing(updated, rows, ids)
  {
    forall id | id in ids ensures exists i :: 0 <= i < |updated| && updated[i].taskId == id {
      var i :| 0 <= i < |tasks| && tasks[i].taskId == id;
      assert updated[i].taskId == id;
    }
    forall i, j | 0 <= i < j < |updated| ensures updated[i].taskId != updated[j].taskId {
      assert tasks[i].taskId != tasks[j].taskId;
    }
  }

  // ----- The loop of `mark_recovering` -----

  /** The first i listed rows are marked and reported, the others untouched. */
  ghost predicate PartlyMarked(before: Table, rows: Table, recoverable: seq<TaskRecord>, updated: seq<TaskRecord>,
                               i: nat, now: Time) {
    && rows.Keys == before.Keys
    && Listing(recoverable, before, IdsIn(before, RECOVERABLE_STATES, None))
    && |updated| == i <= |recoverable|
    && (forall j :: 0 <= j < i ==>
      updated[j] == Marked(recoverable[j], now) && rows[recoverable[j].taskId] == updated[j])
    && (forall j :: i <= j < |recoverable| ==> rows[recoverable[j].taskId] == recoverable[j])
    && (forall id :: id in before && id !in IdsIn(before, RECOVERABLE_STATES, None) ==> rows[id] == before[id])
  }

  lemma MarkOneMore(before: Table, rows: Table, recoverable: seq<TaskRecord>, updated: seq<TaskRecord>, i: nat,
                    now: Time)
    requires PartlyMarked(before, rows, recoverable, updated, i, now) && i < |recoverable|
    ensures recoverable[i].state in RECOVERABLE_STATES
    ensures recoverable[i].taskId in rows && rows[recoverable[i].taskId] == recoverable[i]
    ensures var marked := Marked(recoverable[i], now);
            PartlyMarked(before, rows[marked.taskId := marked], recoverable, updated + [marked], i + 1, now)
    ensures recoverable[i].state == Pending ==> rows[recoverable[i].taskId := recoverable[i]] == rows
  {
    var marked := Marked(recoverable[i], now);
    var later := rows[marked.taskId := marked];
    assert later.Keys == rows.Keys;
    forall j | 0 <= j < |recoverable| && j != i ensures recoverable[j].taskId != marked.taskId {
      if j < i { assert recoverable[j].taskId != recoverable[i].taskId; }
        else { assert recoverable[i].taskId != recoverable[j].taskId; }
    }
  }

  lemma MarkedRow(before: Table, rows: Table, recoverable: seq<TaskRecord>, updated: seq<TaskRecord>, now: Time,
                  id: TaskId)
    requires PartlyMarked(before, rows, recoverable, updated, |recoverable|, now) && id in before
    ensures rows[id] == Marked(before[id], now)
  {
    if id in IdsIn(before, RECOVERABLE_STATES, None) {
      var i :| 0 <= i < |recoverable| && recoverable[i].taskId == id;
    }
  }

  lemma MarkedEverywhere(before: Table, rows: Table, recoverable: seq<TaskRecord>, updated: seq<TaskRecord>, now: Time)
    requires PartlyMarked(before, rows, recoverable, updated, |recoverable|, now)
    ensures rows == TaskTable.MarkRecovering(before, now)
    ensures Listing(updated, rows, IdsIn(before, RECOVERABLE_STATES, None))
  {
    forall id | id in before ensures rows[id] == Marked(before[id], now) {
      MarkedRow(before, rows, recoverable, updated, now, id);
    }
    ListingRenamed(recoverable, before, updated, rows, IdsIn(before, RECOVERABLE_STATES, None));
  }

  // ----- The store -----

  class TaskStore {
    var rows: Table

    ghost predicate Valid()
      reads this
    {
      KeysUnique(rows) && KeyedById(rows)
    }

    /** Opens a database: the rows that its file holds, none when it is new. Its constraints hold of them. */
    constructor (rows: Table)
      requires KeysUnique(rows) && KeyedById(rows)
      ensures Valid() && this.rows == rows
    {
      this.rows := rows;
    }

    /** Reports whether the row was written; a key held by another row raises IntegrityError and writes nothing. */
    method Upsert(task: TaskRecord) returns (written: bool)
      requires Valid()
      modifies this
      ensures Valid()
      ensures written == !Conflicts(old(rows), task)
      ensures rows == if written then Put(old(rows), task) else old(rows)
    {
      written := true;
      var ids := rows.Keys;
      while ids != {}
        invariant written
        invariant forall id :: id in rows && id !in ids && id != task.taskId && task.idempotencyKey.Some? ==>
          rows[id].idempotencyKey != task.idempotencyKey
        invariant ids <= rows.Keys
        decreases |ids|
      {
        var id :| id in ids;
        if id != task.taskId && task.idempotencyKey.Some? && rows[id].idempotencyKey == task.idempotencyKey {
          return false;
        }
        ids := ids - {id};
      }
      PutKeepsKeysUnique(rows, task);
      rows := Put(rows, task);
    }

    method Get(taskId: TaskId) returns (task: Option<TaskRecord>)
      requires Valid()
      ensures task == if taskId in rows then Some(rows[taskId]) else None
    {
      task := if taskId in rows then Some(rows[taskId]) else None;
    }

    method GetByIdempotencyKey(key: string) returns (task: Option<TaskRecord>)
      requires Valid()
      ensures task.Some? <==> KeyHeld(rows, Some(key))
      ensures task.Some? ==>
        task.value.taskId in rows && rows[task.value.taskId] == task.value && task.value.idempotencyKey == Some(key)
    {
      var ids := rows.Keys;
      while ids != {}
        invariant ids <= rows.Keys
        invariant forall id :: id in rows && id !in ids ==> rows[id].idempotencyKey != Some(key)
        decreases |ids|
      {
        var id :| id in ids;
        if rows[id].idempotencyKey == Some(key) {
          return Some(rows[id]);
        }
        ids := ids - {id};
      }
      task := None;
    }

    /**
     One transaction: an existing holder of a non-empty key is returned unchanged, otherwise
     the row is inserted. An empty key skips the look-up, and then the UNIQUE column may refuse it.
     */
    method CreateOrGet(task: TaskRecord) returns (stored: Result<TaskRecord, ()>, created: bool)
      requires Valid() && task.taskId !in rows
      modifies this
      ensures Valid()
      ensures task.HasKey() && KeyHeld(old(rows), task.idempotencyKey) ==>
                !created && rows == old(rows)
                && stored.Ok? && stored.value.taskId in rows && rows[stored.value.taskId] == stored.value
                && stored.value.idempotencyKey == task.idempotencyKey
      ensures !task.HasKey() && KeyHeld(old(rows), task.idempotencyKey) ==> stored.Err? && !created && rows == old(rows)
      ensures !KeyHeld(old(rows), task.idempotencyKey) ==> stored == Ok(task) && created && rows == Put(old(rows), task)
    {
      if task.HasKey() {
        var existing := GetByIdempotencyKey(task.idempotencyKey.value);
        if existing.Some? {
          return Ok(existing.value), false;
        }
      }
      created := Upsert(task);
      stored := if created then Ok(task) else Err(());
    }

    method ListByStates(states: set<TaskState>) returns (tasks: seq<TaskRecord>)
      requires Valid()
      ensures Listing(tasks, rows, IdsIn(rows, states, None))
    {
      var all := IdsIn(rows, states, None);
      var left := all;
      tasks := [];
      while left != {}
        invariant left <= all <= rows.Keys
        invariant Listing(tasks, rows, all - left)
        decreases |left|
      {
        var id :| id in left;
        ListingTakes(tasks, rows, all, left, id);
        tasks := tasks + [rows[id]];
        left := left - {id};
      }
      assert all - left == all;
    }

    /**
     Rows left Running, Retrying or Recovering by the last process become Recovering without going through the
     transition table.
     */
    method MarkRecovering(now: Time) returns (updated: seq<TaskRecord>)
      requires Valid()
      modifies this
      ensures Valid()
      ensures rows == TaskTable.MarkRecovering(old(rows), now)
      ensures Listing(updated, rows, IdsIn(old(rows), RECOVERABLE_STATES, None))
    {
      var recoverable := ListByStates(RECOVERABLE_STATES);
      ghost var before := rows;
      updated := [];
      for i := 0 to |recoverable|
        invariant Valid()
        invariant PartlyMarked(before, rows, recoverable, updated, i, now)
      {
        var task := recoverable[i];
        ghost var rowsNow, updatedNow := rows, updated;
        if task.state == Pending {
          updated := updated + [task];
        } else {
          var marked := task.(state := Recovering, updatedAt := now, dispatchAttemptId := None);
          PutSameKeyNeverConflicts(rows, marked);
          var written := Upsert(marked);
          updated := updated + [marked];
        }
        MarkOneMore(before, rowsNow, recoverable, updatedNow, i, now);
      }
      MarkedEverywhere(before, rows, recoverable, updated, now);
    }
  }
}
