/**
 * `TaskList` of script-oop.js: the ordered collection of tasks, its queries
 * and its persistence to the "todoList" entry of local storage.
 */
module TaskCollection {
  import opened Wrappers
  import opened TaskEntity

  /* ---------- Queries over a sequence of tasks ---------- */

  /** No task object occurs twice. */
  ghost predicate Distinct(ts: seq<Task>)
  {
    forall i, j :: 0 <= i < j < |ts| ==> ts[i] != ts[j]
  }

  /** The field values of the tasks, in order: what `JSON.stringify` saves. */
  function Records(ts: seq<Task>): (r: seq<TaskRecord>)
    reads ts
    ensures |r| == |ts|
  {
    if ts == [] then [] else [ts[0].Record()] + Records(ts[1..])
  }

  /** The index of the first task whose id is `id` (`tasks.find`), if any. */
  function FindIndex(ts: seq<Task>, id: int): (r: Option<nat>)
    ensures r.Some? ==> r.value < |ts| && ts[r.value].id == id
    ensures r.Some? ==> forall j :: 0 <= j < r.value ==> ts[j].id != id
    ensures r.None? <==> forall j :: 0 <= j < |ts| ==> ts[j].id != id
  {
    if ts == [] then None
    else if ts[0].id == id then Some(0)
    else
      var rest := FindIndex(ts[1..], id);
      if rest.None? then None else Some(rest.value + 1)
  }

  /** The tasks whose id differs from `id`, in order (the filter of `delete`). */
  function WithoutId(ts: seq<Task>, id: int): (r: seq<Task>)
    ensures forall i :: 0 <= i < |r| ==> r[i] in ts && r[i].id != id
    ensures forall i :: 0 <= i < |ts| && ts[i].id != id ==> ts[i] in r
    ensures |r| <= |ts|
  {
    if ts == [] then []
    else (if ts[0].id != id then [ts[0]] else []) + WithoutId(ts[1..], id)
  }

  /** The tasks whose completion flag is `done`, in order (the filters of `getFiltered`). */
  function Select(ts: seq<Task>, done: bool): (r: seq<Task>)
    reads ts
    ensures forall i :: 0 <= i < |r| ==> r[i] in ts && r[i].completed == done
    ensures forall i :: 0 <= i < |ts| && ts[i].completed == done ==> ts[i] in r
    ensures |r| <= |ts|
  {
    if ts == [] then []
    else (if ts[0].completed == done then [ts[0]] else []) + Select(ts[1..], done)
  }

  /* ---------- Properties of the queries ---------- */

  /** The saved list holds each task's fields at the task's position. */
  lemma {:induction false} RecordsAt(ts: seq<Task>, i: nat)
    requires i < |ts|
    ensures Records(ts)[i] == ts[i].Record()
  {
    if i > 0 {
      RecordsAt(ts[1..], i - 1);
    }
  }

  /** Saving a concatenation saves the concatenation of the saved lists. */
  lemma {:induction false} RecordsAppend(a: seq<Task>, b: seq<Task>)
    ensures Records(a + b) == Records(a) + Records(b)
  {
    if a != [] {
      assert (a + b)[1..] == a[1..] + b;
      RecordsAppend(a[1..], b);
    } else {
      assert a + b == b;
    }
  }

  /** Deleting preserves relative order: it distributes over concatenation. */
  lemma {:induction false} WithoutIdAppend(a: seq<Task>, b: seq<Task>, id: int)
    ensures WithoutId(a + b, id) == WithoutId(a, id) + WithoutId(b, id)
  {
    if a == [] {
      assert a + b == b;
    } else {
      assert (a + b)[0] == a[0];
      assert (a + b)[1..] == a[1..] + b;
      WithoutIdAppend(a[1..], b, id);
    }
  }

  /** Deleting changes the list exactly when some task carries the id. */
  lemma {:induction false} WithoutIdUnchanged(ts: seq<Task>, id: int)
    ensures WithoutId(ts, id) == ts <==> forall t :: t in ts ==> t.id != id
  {
    if forall t :: t in ts ==> t.id != id {
      if ts != [] {
        assert ts[0] in ts;
        forall t | t in ts[1..] ensures t.id != id {
          assert t in ts;
        }
        WithoutIdUnchanged(ts[1..], id);
        assert ts == [ts[0]] + ts[1..];
      }
    }
  }

  /** Deleting the same id twice equals deleting it once. */
  lemma WithoutIdIdempotent(ts: seq<Task>, id: int)
    ensures WithoutId(WithoutId(ts, id), id) == WithoutId(ts, id)
  {
    WithoutIdUnchanged(WithoutId(ts, id), id);
  }

  /** Deleting keeps the task objects pairwise distinct. */
  lemma {:induction false} WithoutIdDistinct(ts: seq<Task>, id: int)
    requires Distinct(ts)
    ensures Distinct(WithoutId(ts, id))
  {
    if ts != [] {
      var rest := WithoutId(ts[1..], id);
      assert Distinct(ts[1..]) by {
        forall i, j | 0 <= i < j < |ts[1..]| ensures ts[1..][i] != ts[1..][j] {
          assert ts[1..][i] == ts[i + 1] && ts[1..][j] == ts[j + 1];
        }
      }
      WithoutIdDistinct(ts[1..], id);
      assert ts[0] !in ts[1..];
      assert ts[0] !in rest;
      if ts[0].id != id {
        var r := [ts[0]] + rest;
        forall i, j | 0 <= i < j < |r| ensures r[i] != r[j] {
          assert r[j] == rest[j - 1];
          if i > 0 {
            assert r[i] == rest[i - 1];
          }
        }
      }
    }
  }

  /** Filtering by completion preserves relative order: it distributes over concatenation. */
  lemma {:induction false} SelectAppend(a: seq<Task>, b: seq<Task>, done: bool)
    ensures Select(a + b, done) == Select(a, done) + Select(b, done)
  {
    if a == [] {
      assert a + b == b;
    } else {
      assert (a + b)[0] == a[0];
      assert (a + b)[1..] == a[1..] + b;
      SelectAppend(a[1..], b, done);
    }
  }

  /**
   * The completed and the not completed tasks partition the list: as
   * multisets they add up to it (so their lengths add up to its length),
   * and no task is in both.
   */
  lemma {:induction false} SelectPartition(ts: seq<Task>)
    ensures multiset(Select(ts, true)) + multiset(Select(ts, false)) == multiset(ts)
    ensures |Select(ts, true)| + |Select(ts, false)| == |ts|
    ensures forall t :: !(t in Select(ts, true) && t in Select(ts, false))
  {
    SelectMultiset(ts);
    assert |multiset(Select(ts, true))| + |multiset(Select(ts, false))| == |multiset(ts)|;
  }

  lemma {:induction false} SelectMultiset(ts: seq<Task>)
    ensures multiset(Select(ts, true)) + multiset(Select(ts, false)) == multiset(ts)
  {
    if ts != [] {
      var t, rest := ts[0], ts[1..];
      SelectMultiset(rest);
      assert multiset(ts) == multiset{t} + multiset(rest) by {
        assert ts == [t] + rest;
      }
      var done := t.completed;
      assert multiset(Select(ts, done)) == multiset{t} + multiset(Select(rest, done)) by {
        assert Select(ts, done) == [t] + Select(rest, done);
      }
      assert Select(ts, !done) == Select(rest, !done);
    }
  }

  /* ---------- Local storage and the task list ---------- */

  /** The browser's local storage entry "todoList": absent, or the saved records. */
  class Storage {
    var todoList: Option<seq<TaskRecord>>

    constructor (saved: Option<seq<TaskRecord>>)
      ensures todoList == saved
    {
      todoList := saved;
    }
  }

  class TaskList {
    var tasks: seq<Task>
    const storage: Storage

    ghost predicate Valid()
      reads this
    {
      Distinct(tasks)
    }

    constructor (storage: Storage)
      ensures Valid() && tasks == [] && this.storage == storage
    {
      tasks := [];
      this.storage := storage;
    }

    /** Writes the whole collection to local storage. */
    method Save()
      modifies storage
      ensures storage.todoList == Some(Records(tasks))
    {
      storage.todoList := Some(Records(tasks));
    }

    /**
     * Restores the tasks from local storage when it holds a non-empty list,
     * as fresh objects with the saved field values. Otherwise `load` fetches
     * a seed list from the network; that branch is not modelled and leaves
     * the tasks as they were.
     */
    method Load() returns (fromStorage: bool)
      modifies this
      ensures fromStorage <==> storage.todoList.Some? && |storage.todoList.value| > 0
      ensures fromStorage ==> Valid() && Records(tasks) == storage.todoList.value
      ensures fromStorage ==> fresh(set t | t in tasks)
      ensures !fromStorage ==> tasks == old(tasks)
    {
      var saved := storage.todoList;
      if saved.None? || |saved.value| == 0 {
        return false;
      }
      tasks := Revive(saved.value);
      fromStorage := true;
    }

    /** New task objects holding the saved records, in order (the `map` of `load`). */
    static method Revive(rs: seq<TaskRecord>) returns (ts: seq<Task>)
      ensures Records(ts) == rs && Distinct(ts)
      ensures fresh(set t | t in ts)
    {
      ts := [];
      for i := 0 to |rs|
        invariant Records(ts) == rs[..i]
        invariant fresh(set t | t in ts)
        invariant Distinct(ts)
      {
        var t := new Task(rs[i].title, rs[i].completed, rs[i].userId, rs[i].id, rs[i].reminderTime);
        assert Records(ts + [t]) == rs[..i + 1] by {
          RecordsAppend(ts, [t]);
          assert Records([t]) == [rs[i]];
          assert rs[..i + 1] == rs[..i] + [rs[i]];
        }
        ts := ts + [t];
      }
      assert rs[..|rs|] == rs;
    }

    /**
     * Appends a new, not completed task with the given title and the id
     * `now`, unless the title is empty.
     */
    method Add(title: string, now: int) returns (r: Option<Task>)
      requires Valid()
      modifies this, storage
      ensures Valid()
      ensures title == "" ==> r.None? && tasks == old(tasks) && storage.todoList == old(storage.todoList)
      ensures title != "" ==> r.Some? && fresh(r.value) && tasks == old(tasks) + [r.value]
      ensures title != "" ==> r.value.Record() == TaskRecord(title, false, DefaultUserId, now, None)
      ensures title != "" ==> Records(tasks) == old(Records(tasks)) + [r.value.Record()]
      ensures title != "" ==> storage.todoList == Some(Records(tasks))
    {
      if title == "" {
        return None;
      }
      ghost var before := Records(tasks);
      var task := new Task(title, false, DefaultUserId, now, None);
      assert Records(tasks) == before;
      RecordsAppend(tasks, [task]);
      assert Records([task]) == [task.Record()];
      tasks := tasks + [task];
      assert Records(tasks) == before + [task.Record()];
      Save();
      r := Some(task);
    }

    /** Removes every task whose id is `id` and returns the remaining tasks. */
    method Delete(id: int) returns (r: seq<Task>)
      requires Valid()
      modifies this, storage
      ensures Valid()
      ensures tasks == WithoutId(old(tasks), id) && r == tasks
      ensures storage.todoList == Some(Records(tasks))
    {
      WithoutIdDistinct(tasks, id);
      tasks := WithoutId(tasks, id);
      Save();
      r := tasks;
    }

    /**
     * The tasks of one filter kind: "fulfilled", "unfulfilled" or "all".
     * Any other kind has no result.
     */
    function GetFiltered(kind: string): (r: Option<seq<Task>>)
      reads this, tasks
      ensures r.Some? <==> kind == "fulfilled" || kind == "unfulfilled" || kind == "all"
      ensures kind == "all" ==> r == Some(tasks)
      ensures kind == "fulfilled" || kind == "unfulfilled" ==>
        var done := kind == "fulfilled";
        r.Some? &&
        (forall i :: 0 <= i < |r.value| ==> r.value[i] in tasks && r.value[i].completed == done) &&
        (forall i :: 0 <= i < |tasks| && tasks[i].completed == done ==> tasks[i] in r.value)
    {
      if kind == "fulfilled" then Some(Select(tasks, true))
      else if kind == "unfulfilled" then Some(Select(tasks, false))
      else if kind == "all" then Some(tasks)
      else None
    }

    /** Flips the completion of the first task with id `id`; nothing if there is none. */
    method ToggleTaskComplete(id: int)
      requires Valid()
      modifies storage, tasks
      ensures tasks == old(tasks) && Valid()
      ensures var k := FindIndex(tasks, id);
        forall i :: 0 <= i < |tasks| ==>
          tasks[i].completed == (if k == Some(i) then !old(tasks[i].completed) else old(tasks[i].completed)) &&
          tasks[i].reminderTime == old(tasks[i].reminderTime)
      ensures storage.todoList == if FindIndex(tasks, id).None? then old(storage.todoList) else Some(Records(tasks))
    {
      var k := FindIndex(tasks, id);
      if k.None? {
        return;
      }
      var task := tasks[k.value];
      var _ := task.ToggleComplete();
      forall i | 0 <= i < |tasks| && i != k.value
        ensures tasks[i].completed == old(tasks[i].completed) && tasks[i].reminderTime == old(tasks[i].reminderTime)
      {
        assert tasks[i] != task;
      }
      Save();
    }

    /**
     * Sets the reminder of the first task with id `id` to `time` when `time`
     * lies after `now`; nothing if there is no such task.
     */
    method SetTaskReminder(id: int, time: int, now: int)
      requires Valid()
      modifies storage, tasks
      ensures tasks == old(tasks) && Valid()
      ensures var k := FindIndex(tasks, id);
        forall i :: 0 <= i < |tasks| ==>
          tasks[i].completed == old(tasks[i].completed) &&
          tasks[i].reminderTime ==
            (if k == Some(i) && now < time then Some(time) else old(tasks[i].reminderTime))
      ensures storage.todoList == if FindIndex(tasks, id).None? then old(storage.todoList) else Some(Records(tasks))
    {
      var k := FindIndex(tasks, id);
      if k.None? {
        return;
      }
      var task := tasks[k.value];
      var _ := task.SetReminder(time, now);
      forall i | 0 <= i < |tasks| && i != k.value
        ensures tasks[i].completed == old(tasks[i].completed) && tasks[i].reminderTime == old(tasks[i].reminderTime)
      {
        assert tasks[i] != task;
      }
      Save();
    }

    /** Drops the reminder of the first task with id `id`; nothing if there is none. */
    method ClearTaskReminder(id: int)
      requires Valid()
      modifies storage, tasks
      ensures tasks == old(tasks) && Valid()
      ensures var k := FindIndex(tasks, id);
        forall i :: 0 <= i < |tasks| ==>
          tasks[i].completed == old(tasks[i].completed) &&
          tasks[i].reminderTime == (if k == Some(i) then None else old(tasks[i].reminderTime))
      ensures storage.todoList == if FindIndex(tasks, id).None? then old(storage.todoList) else Some(Records(tasks))
    {
      var k := FindIndex(tasks, id);
      if k.None? {
        return;
      }
      var task := tasks[k.value];
      task.ClearReminder();
      forall i | 0 <= i < |tasks| && i != k.value
        ensures tasks[i].completed == old(tasks[i].completed) && tasks[i].reminderTime == old(tasks[i].reminderTime)
      {
        assert tasks[i] != task;
      }
      Save();
    }
  }
}
