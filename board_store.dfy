/**
 * The kanban board store (kanban-next/stores/boardStore.ts): an ordered
 * list of tasks, the configured columns, and the copy of the list last
 * written to local storage. Ids and timestamps, which the store draws from
 * the clock and a random generator, are parameters here.
 */
module Board {
  import opened Collections

  /** A column identifier (`ColumnId`). */
  type ColumnId = string

  datatype Task = Task(id: string, title: string, description: string, column: ColumnId, createdAt: int)

  datatype Column = Column(id: ColumnId, title: string)

  /** `defaultColumns`, the board's configured columns. */
  const DefaultColumns: seq<Column> :=
    [Column("todo", "To Do"), Column("inProgress", "In Progress"), Column("done", "Done")]

  /** The ids present in a list of tasks. */
  function TaskIds(tasks: seq<Task>): set<string>
  {
    set t | t in tasks :: t.id
  }

  /** The identifiers of a list of columns. */
  function ColumnIds(columns: seq<Column>): set<ColumnId>
  {
    set c | c in columns :: c.id
  }

  /** No two tasks share an id. */
  predicate UniqueTaskIds(tasks: seq<Task>)
  {
    forall i, j :: 0 <= i < j < |tasks| ==> tasks[i].id != tasks[j].id
  }

  /** Every task sits in one of the given columns. */
  predicate InKnownColumns(tasks: seq<Task>, columns: seq<Column>)
  {
    forall i :: 0 <= i < |tasks| ==> tasks[i].column in ColumnIds(columns)
  }

  /** An id is absent when no task at any position carries it. */
  lemma AbsentId(tasks: seq<Task>, id: string)
    requires id !in TaskIds(tasks)
    ensures forall i :: 0 <= i < |tasks| ==> tasks[i].id != id
  {
    forall i | 0 <= i < |tasks| ensures tasks[i].id != id {
      assert tasks[i] in tasks;
    }
  }

  // ---------------------------------------------------------------------
  // The pure list transitions
  // ---------------------------------------------------------------------

  /**
   * The list `updateTask(id, title, description)` produces: every task with
   * that id gets the new title and description and keeps its id, column and
   * creation time; all other tasks, the length and the order are unchanged.
   */
  function UpdateTaskIn(tasks: seq<Task>, id: string, title: string, description: string): (r: seq<Task>)
    ensures |r| == |tasks|
    ensures forall i :: 0 <= i < |tasks| ==>
              r[i].id == tasks[i].id && r[i].column == tasks[i].column && r[i].createdAt == tasks[i].createdAt
    ensures forall i :: 0 <= i < |tasks| && tasks[i].id == id ==> r[i].title == title && r[i].description == description
    ensures forall i :: 0 <= i < |tasks| && tasks[i].id != id ==> r[i] == tasks[i]
    ensures id !in TaskIds(tasks) ==> r == tasks
  {
    var r := seq(|tasks|, i requires 0 <= i < |tasks| =>
      if tasks[i].id == id then tasks[i].(title := title, description := description) else tasks[i]);
    if id !in TaskIds(tasks) then AbsentId(tasks, id); r else r
  }

  /**
   * The list `moveTask(id, column)` produces: every task with that id now
   * has the given column and stays at its position; nothing else changes.
   * The column is not checked against the configured ones.
   */
  function MoveTaskIn(tasks: seq<Task>, id: string, column: ColumnId): (r: seq<Task>)
    ensures |r| == |tasks|
    ensures forall i :: 0 <= i < |tasks| && tasks[i].id == id ==> r[i] == tasks[i].(column := column)
    ensures forall i :: 0 <= i < |tasks| && tasks[i].id != id ==> r[i] == tasks[i]
    ensures id !in TaskIds(tasks) ==> r == tasks
    ensures TaskIds(r) == TaskIds(tasks)
  {
    var r := seq(|tasks|, i requires 0 <= i < |tasks| =>
      if tasks[i].id == id then tasks[i].(column := column) else tasks[i]);
    assert TaskIds(r) == TaskIds(tasks) by {
      forall x | x in TaskIds(r) ensures x in TaskIds(tasks) {
        var i :| 0 <= i < |r| && r[i].id == x;
        assert tasks[i] in tasks;
      }
      forall x | x in TaskIds(tasks) ensures x in TaskIds(r) {
        var i :| 0 <= i < |tasks| && tasks[i].id == x;
        assert r[i] in r;
      }
    }
    if id !in TaskIds(tasks) then AbsentId(tasks, id); r else r
  }

  /**
   * The list `deleteTask(id)` produces: exactly the tasks with other ids, in
   * their original order; an absent id changes nothing.
   */
  function DeleteTaskFrom(tasks: seq<Task>, id: string): (r: seq<Task>)
    ensures forall t :: t in r <==> t in tasks && t.id != id
    ensures TaskIds(r) == TaskIds(tasks) - {id}
    ensures id !in TaskIds(tasks) ==> r == tasks
  {
    var r := Filter(tasks, (t: Task) => t.id != id);
    if id !in TaskIds(tasks) then
      AbsentId(tasks, id);
      FilterKeepsAll(tasks, (t: Task) => t.id != id);
      r
    else
      r
  }

  /** `getTasksByColumn(column)`'s answer: exactly the tasks in that column, in list order. */
  function TasksInColumn(tasks: seq<Task>, column: ColumnId): (r: seq<Task>)
    ensures forall t :: t in r <==> t in tasks && t.column == column
    ensures |r| <= |tasks|
  {
    Filter(tasks, (t: Task) => t.column == column)
  }

  // ---------------------------------------------------------------------
  // Properties of the transitions
  // ---------------------------------------------------------------------

  /** Deleting twice is deleting once. */
  lemma DeleteIdempotent(tasks: seq<Task>, id: string)
    ensures DeleteTaskFrom(DeleteTaskFrom(tasks, id), id) == DeleteTaskFrom(tasks, id)
  {
  }

  /** The tasks that survive a delete keep their relative order. */
  lemma DeleteKeepsOrder(a: seq<Task>, b: seq<Task>, id: string)
    ensures DeleteTaskFrom(a + b, id) == DeleteTaskFrom(a, id) + DeleteTaskFrom(b, id)
  {
    FilterConcat(a, b, (t: Task) => t.id != id);
  }

  /** A column's view lists tasks in list order: querying a split list queries each part. */
  lemma ColumnViewKeepsOrder(a: seq<Task>, b: seq<Task>, column: ColumnId)
    ensures TasksInColumn(a + b, column) == TasksInColumn(a, column) + TasksInColumn(b, column)
  {
    FilterConcat(a, b, (t: Task) => t.column == column);
  }

  /** A column's view of a single task. */
  lemma ColumnViewSingle(t: Task, column: ColumnId)
    ensures TasksInColumn([t], column) == if t.column == column then [t] else []
  {
    FilterSingleton(t, (x: Task) => x.column == column);
  }

  /** A newly added task shows up last in its own column, and other columns are unaffected. */
  lemma AddShowsLastInColumn(tasks: seq<Task>, t: Task, column: ColumnId)
    ensures TasksInColumn(tasks + [t], column) ==
              TasksInColumn(tasks, column) + (if t.column == column then [t] else [])
  {
    ColumnViewKeepsOrder(tasks, [t], column);
    ColumnViewSingle(t, column);
  }

  /** Appending a task with a fresh id keeps ids unique. */
  lemma AddKeepsUnique(tasks: seq<Task>, t: Task)
    requires UniqueTaskIds(tasks) && t.id !in TaskIds(tasks)
    ensures UniqueTaskIds(tasks + [t])
  {
    AbsentId(tasks, t.id);
  }

  /** Updating keeps ids unique. */
  lemma UpdateKeepsUnique(tasks: seq<Task>, id: string, title: string, description: string)
    requires UniqueTaskIds(tasks)
    ensures UniqueTaskIds(UpdateTaskIn(tasks, id, title, description))
  {
    var r := UpdateTaskIn(tasks, id, title, description);
    assert forall i :: 0 <= i < |r| ==> r[i].id == tasks[i].id;
  }

  /** Moving keeps ids unique. */
  lemma MoveKeepsUnique(tasks: seq<Task>, id: string, column: ColumnId)
    requires UniqueTaskIds(tasks)
    ensures UniqueTaskIds(MoveTaskIn(tasks, id, column))
  {
    var r := MoveTaskIn(tasks, id, column);
    assert forall i :: 0 <= i < |r| ==> r[i].id == tasks[i].id;
  }

  /** Cutting one task out of a list with unique ids leaves unique ids. */
  lemma CutKeepsUnique(tasks: seq<Task>, k: nat)
    requires UniqueTaskIds(tasks) && k < |tasks|
    ensures UniqueTaskIds(tasks[..k] + tasks[k + 1..])
  {
    var r := tasks[..k] + tasks[k + 1..];
    assert forall i :: 0 <= i < |r| ==> r[i] == tasks[if i < k then i else i + 1];
  }

  /** Deleting keeps ids unique. */
  lemma DeleteKeepsUnique(tasks: seq<Task>, id: string)
    requires UniqueTaskIds(tasks)
    ensures UniqueTaskIds(DeleteTaskFrom(tasks, id))
  {
    if id in TaskIds(tasks) {
      var k :| 0 <= k < |tasks| && tasks[k].id == id;
      DeletePresent(tasks, k);
      CutKeepsUnique(tasks, k);
    }
  }

  /** In a list with unique ids, deleting a present id cuts out exactly its task. */
  lemma DeletePresent(tasks: seq<Task>, k: nat)
    requires UniqueTaskIds(tasks) && k < |tasks|
    ensures DeleteTaskFrom(tasks, tasks[k].id) == tasks[..k] + tasks[k + 1..]
  {
    var id := tasks[k].id;
    assert forall j :: 0 <= j < |tasks| && j != k ==> tasks[j].id != id by {
      forall j | 0 <= j < |tasks| && j != k ensures tasks[j].id != id {
        if j < k { assert tasks[j].id != tasks[k].id; } else { assert tasks[k].id != tasks[j].id; }
      }
    }
    FilterDropsOne(tasks, (t: Task) => t.id != id, k);
  }

  /**
   * After moving a task into a different column, the new
   * column's view contains it and the old column's view no longer holds a
   * task with its id.
   */
  lemma MoveChangesColumnViews(tasks: seq<Task>, k: nat, column: ColumnId)
    requires k < |tasks| && tasks[k].column != column
    ensures tasks[k].(column := column) in TasksInColumn(MoveTaskIn(tasks, tasks[k].id, column), column)
    ensures forall t :: t in TasksInColumn(MoveTaskIn(tasks, tasks[k].id, column), tasks[k].column) ==> t.id != tasks[k].id
  {
    var r := MoveTaskIn(tasks, tasks[k].id, column);
    assert r[k] in r;
    forall t | t in TasksInColumn(r, tasks[k].column) ensures t.id != tasks[k].id {
      var j :| 0 <= j < |r| && r[j] == t;
    }
  }

  /**
   * A moved task's place in its new column comes from its position in the
   * list, not from where it was dropped: in a unique list split around the
   * task, the new column's view is the view of the part before it, the
   * task, and the view of the part after it.
   */
  lemma MovedTaskOrder(before: seq<Task>, t: Task, after: seq<Task>, column: ColumnId)
    requires UniqueTaskIds(before + [t] + after)
    ensures TasksInColumn(MoveTaskIn(before + [t] + after, t.id, column), column) ==
              TasksInColumn(before, column) + [t.(column := column)] + TasksInColumn(after, column)
  {
    var tasks := before + [t] + after;
    assert forall i :: 0 <= i < |before| ==> tasks[i] == before[i];
    assert forall i :: 0 <= i < |after| ==> tasks[|before| + 1 + i] == after[i];
    assert tasks[|before|] == t;
    MoveAround(before, t, after, column);
    ColumnViewKeepsOrder(before + [t.(column := column)], after, column);
    ColumnViewKeepsOrder(before, [t.(column := column)], column);
    ColumnViewSingle(t.(column := column), column);
  }

  /** Moving a task whose id occurs nowhere else changes only that task, in place. */
  lemma MoveAround(before: seq<Task>, t: Task, after: seq<Task>, column: ColumnId)
    requires forall i :: 0 <= i < |before| ==> before[i].id != t.id
    requires forall i :: 0 <= i < |after| ==> after[i].id != t.id
    ensures MoveTaskIn(before + [t] + after, t.id, column) == before + [t.(column := column)] + after
  {
    var tasks := before + [t] + after;
    var r := MoveTaskIn(tasks, t.id, column);
    var expected := before + [t.(column := column)] + after;
    forall i | 0 <= i < |r| ensures r[i] == expected[i] {
      if i < |before| {
        assert tasks[i] == before[i];
      } else if i > |before| {
        assert tasks[i] == after[i - |before| - 1];
      }
    }
  }

  /** Moving into a configured column keeps every task in a configured column. */
  lemma MoveToKnownColumn(tasks: seq<Task>, columns: seq<Column>, id: string, column: ColumnId)
    requires InKnownColumns(tasks, columns) && column in ColumnIds(columns)
    ensures InKnownColumns(MoveTaskIn(tasks, id, column), columns)
  {
  }

  /** `moveTask` does not validate its column: it can put a task into one the board does not have. */
  lemma MoveToUnknownColumn()
    ensures InKnownColumns([Task("1", "t", "", "todo", 0)], DefaultColumns)
    ensures !InKnownColumns(MoveTaskIn([Task("1", "t", "", "todo", 0)], "1", "archive"), DefaultColumns)
  {
    var columns := DefaultColumns;
    assert columns[0] in columns;
    assert ColumnIds(columns) == {"todo", "inProgress", "done"};
    var r := MoveTaskIn([Task("1", "t", "", "todo", 0)], "1", "archive");
    assert r[0].column == "archive";
  }

  // ---------------------------------------------------------------------
  // The store
  // ---------------------------------------------------------------------

  /** The state held by `useBoardStore` and its actions. */
  class BoardStore {
    var tasks: seq<Task>
    var columns: seq<Column>
    /** What local storage holds under the board's key: written by every mutation. */
    ghost var persisted: Option<seq<Task>>

    /**
     * The store's creation: the tasks `loadTasks()` yields when storage holds
     * some (even an empty list), the sample tasks otherwise.
     */
    constructor (stored: Option<seq<Task>>, samples: seq<Task>)
      ensures tasks == (if stored.Some? then stored.value else samples)
      ensures columns == DefaultColumns
      ensures persisted == stored
    {
      tasks := if stored.Some? then stored.value else samples;
      columns := DefaultColumns;
      persisted := stored;
    }

    /** `initializeTasks()`: adopt what storage yields, if anything; nothing is written. */
    method InitializeTasks(stored: Option<seq<Task>>)
      modifies this`tasks
      ensures tasks == if stored.Some? then stored.value else old(tasks)
    {
      if stored.Some? {
        tasks := stored.value;
      }
    }

    /**
     * `addTask(title, description, column)`: append one task with a fresh id
     * and the creation time, then save. The title is not checked, so an
     * empty one is accepted.
     */
    method AddTask(title: string, description: string, column: ColumnId, freshId: string, now: int)
      requires freshId !in TaskIds(tasks)
      modifies this`tasks, this`persisted
      ensures tasks == old(tasks) + [Task(freshId, title, description, column, now)]
      ensures persisted == Some(tasks)
      ensures UniqueTaskIds(old(tasks)) ==> UniqueTaskIds(tasks)
    {
      var t := Task(freshId, title, description, column, now);
      if UniqueTaskIds(tasks) {
        AddKeepsUnique(tasks, t);
      }
      tasks := tasks + [t];
      persisted := Some(tasks);
    }

    /** `updateTask(id, title, description)`: retitle the matching task, then save. */
    method UpdateTask(id: string, title: string, description: string)
      modifies this`tasks, this`persisted
      ensures tasks == UpdateTaskIn(old(tasks), id, title, description)
      ensures persisted == Some(tasks)
      ensures UniqueTaskIds(old(tasks)) ==> UniqueTaskIds(tasks)
    {
      if UniqueTaskIds(tasks) {
        UpdateKeepsUnique(tasks, id, title, description);
      }
      tasks := UpdateTaskIn(tasks, id, title, description);
      persisted := Some(tasks);
    }

    /** `deleteTask(id)`: drop the matching tasks, then save. */
    method DeleteTask(id: string)
      modifies this`tasks, this`persisted
      ensures tasks == DeleteTaskFrom(old(tasks), id)
      ensures persisted == Some(tasks)
      ensures UniqueTaskIds(old(tasks)) ==> UniqueTaskIds(tasks)
    {
      if UniqueTaskIds(tasks) {
        DeleteKeepsUnique(tasks, id);
      }
      tasks := DeleteTaskFrom(tasks, id);
      persisted := Some(tasks);
    }

    /** `moveTask(taskId, newColumnId)`: re-column the matching task, then save. */
    method MoveTask(taskId: string, newColumnId: ColumnId)
      modifies this`tasks, this`persisted
      ensures tasks == MoveTaskIn(old(tasks), taskId, newColumnId)
      ensures persisted == Some(tasks)
      ensures UniqueTaskIds(old(tasks)) ==> UniqueTaskIds(tasks)
    {
      if UniqueTaskIds(tasks) {
        MoveKeepsUnique(tasks, taskId, newColumnId);
      }
      tasks := MoveTaskIn(tasks, taskId, newColumnId);
      persisted := Some(tasks);
    }

    /** `getTasksByColumn(columnId)`: a read-only query. */
    method GetTasksByColumn(columnId: ColumnId) returns (r: seq<Task>)
      ensures r == TasksInColumn(tasks, columnId)
      ensures forall t :: t in r <==> t in tasks && t.column == columnId
    {
      r := TasksInColumn(tasks, columnId);
    }
  }
}
