/**
 * `App` of script-oop.js, without its rendering: it routes the handlers to
 * the task list and keeps one reminder timer per task id.
 *
 * A timer is the `setInterval` polling loop started for a task: its handle
 * and the task object its callback captured. `Tick(id, now)` is one run of
 * that callback at time `now`; a timer that has been cleared never runs
 * again, so ticking an id without a timer does nothing.
 */
module Application {
  import opened Wrappers
  import opened TaskEntity
  import opened TaskCollection

  datatype Timer = Timer(handle: nat, task: Task)

  /**
   * `t` is the first task of `ts` that has id `id` and a reminder: the one
   * the start-up pass over the tasks arms a timer for.
   */
  ghost predicate FirstWithReminder(ts: seq<Task>, id: int, t: Task)
    reads ts
  {
    exists j :: 0 <= j < |ts| && ts[j] == t && ts[j].id == id && ts[j].reminderTime.Some? &&
      forall j' :: 0 <= j' < j ==> ts[j'].id != id || ts[j'].reminderTime.None?
  }

  /** Appending a task keeps the first task with a reminder of every id that had one. */
  lemma FirstWithReminderAppend(ts: seq<Task>, u: Task, id: int, t: Task)
    requires FirstWithReminder(ts, id, t)
    ensures FirstWithReminder(ts + [u], id, t)
  {
    var j :| 0 <= j < |ts| && ts[j] == t && ts[j].id == id && ts[j].reminderTime.Some? &&
      forall j' :: 0 <= j' < j ==> ts[j'].id != id || ts[j'].reminderTime.None?;
    assert (ts + [u])[j] == t;
  }

  /** A task with a reminder whose id no earlier task with a reminder has is the first one. */
  lemma FirstWithReminderLast(ts: seq<Task>, u: Task)
    requires u.reminderTime.Some?
    requires forall j :: 0 <= j < |ts| && ts[j].reminderTime.Some? ==> ts[j].id != u.id
    ensures FirstWithReminder(ts + [u], u.id, u)
  {
    assert (ts + [u])[|ts|] == u;
  }

  class App {
    const taskList: TaskList
    var currentFilter: string
    var reminderTimers: map<int, Timer>
    /** The next handle `setInterval` gives out; browsers give positive handles. */
    var nextHandle: nat

    /**
     * The task list is valid; every handle is positive, already given out
     * and used by one id only; and every timer watches a task that is still
     * in the list and carries the timer's id.
     */
    ghost predicate Valid()
      reads this, taskList
    {
      taskList.Valid() && 0 < nextHandle &&
      (forall id :: id in reminderTimers ==> 0 < reminderTimers[id].handle < nextHandle) &&
      (forall a, b :: a in reminderTimers && b in reminderTimers && a != b ==>
        reminderTimers[a].handle != reminderTimers[b].handle) &&
      (forall id :: id in reminderTimers ==>
        reminderTimers[id].task in taskList.tasks && reminderTimers[id].task.id == id)
    }

    constructor (storage: Storage)
      ensures Valid() && fresh(taskList)
      ensures taskList.tasks == [] && taskList.storage == storage
      ensures currentFilter == "all" && reminderTimers == map[]
    {
      taskList := new TaskList(storage);
      currentFilter := "all";
      reminderTimers := map[];
      nextHandle := 1;
    }

    /**
     * Arms a timer for `task` unless it is null, has no reminder, or its id
     * already has a timer: there is never more than one timer per id.
     */
    method StartReminderTimer(task: Task?)
      requires Valid()
      requires task != null ==> task in taskList.tasks
      modifies this
      ensures Valid()
      ensures task == null || task.reminderTime.None? || task.id in old(reminderTimers) ==>
        reminderTimers == old(reminderTimers) && nextHandle == old(nextHandle)
      ensures task != null && task.reminderTime.Some? && task.id !in old(reminderTimers) ==>
        reminderTimers == old(reminderTimers)[task.id := Timer(old(nextHandle), task)] &&
        nextHandle == old(nextHandle) + 1
      ensures currentFilter == old(currentFilter)
    {
      if task == null || task.reminderTime.None? {
        return;
      }
      if task.id in reminderTimers {
        return;
      }
      var handle := nextHandle;
      nextHandle := nextHandle + 1;
      reminderTimers := reminderTimers[task.id := Timer(handle, task)];
    }

    /** Cancels and forgets the timer of `id`; nothing if it has none. */
    method ClearReminderTimer(id: int)
      requires Valid()
      modifies this
      ensures Valid()
      ensures reminderTimers == old(reminderTimers) - {id}
      ensures nextHandle == old(nextHandle) && currentFilter == old(currentFilter)
    {
      var timer := if id in reminderTimers then Some(reminderTimers[id]) else None;
      if timer.Some? && timer.value.handle != 0 {
        reminderTimers := reminderTimers - {id};
      }
    }

    /** The timer of `id` exists and the task it watches has a reminder no later than `now`. */
    ghost predicate Due(id: int, now: int)
      reads this, if id in reminderTimers then {reminderTimers[id].task} else {}
    {
      id in reminderTimers && reminderTimers[id].task.reminderTime.Some? &&
      now >= reminderTimers[id].task.reminderTime.value
    }

    /**
     * One run of the interval callback of the timer for `id` at time `now`.
     * A task without a reminder loses its timer; a reminder that is due is
     * cleared, its timer removed and the task's title returned as the
     * notification; a reminder still in the future changes nothing.
     */
    method Tick(id: int, now: int) returns (notification: Option<string>)
      requires Valid()
      modifies this, taskList.storage, taskList.tasks
      ensures Valid() && taskList.tasks == old(taskList.tasks)
      ensures currentFilter == old(currentFilter) && nextHandle == old(nextHandle)
      ensures notification == if old(Due(id, now)) then Some(old(reminderTimers[id].task.title)) else None
      ensures reminderTimers ==
        if id in old(reminderTimers) && (old(reminderTimers[id].task.reminderTime).None? || old(Due(id, now)))
        then old(reminderTimers) - {id}
        else old(reminderTimers)
      ensures var k := if old(Due(id, now)) then FindIndex(taskList.tasks, id) else None;
        forall i :: 0 <= i < |taskList.tasks| ==>
          taskList.tasks[i].completed == old(taskList.tasks[i].completed) &&
          taskList.tasks[i].reminderTime == (if k == Some(i) then None else old(taskList.tasks[i].reminderTime))
      ensures taskList.storage.todoList ==
        if old(Due(id, now)) then Some(Records(taskList.tasks)) else old(taskList.storage.todoList)
    {
      if id !in reminderTimers {
        return None;
      }
      var task := reminderTimers[id].task;
      if task.reminderTime.None? {
        ClearReminderTimer(id);
        return None;
      }
      if now >= task.reminderTime.value {
        notification := Some(task.title);
        FireReminder(id);
      } else {
        notification := None;
      }
    }

    /**
     * The due branch of the interval callback: the first task with the id
     * loses its reminder and the id's timer is removed.
     */
    method FireReminder(id: int)
      requires Valid() && id in reminderTimers
      modifies this, taskList.storage, taskList.tasks
      ensures Valid() && taskList.tasks == old(taskList.tasks)
      ensures currentFilter == old(currentFilter) && nextHandle == old(nextHandle)
      ensures reminderTimers == old(reminderTimers) - {id}
      ensures FindIndex(taskList.tasks, id).Some?
      ensures var k := FindIndex(taskList.tasks, id);
        forall i :: 0 <= i < |taskList.tasks| ==>
          taskList.tasks[i].completed == old(taskList.tasks[i].completed) &&
          taskList.tasks[i].reminderTime == (if k == Some(i) then None else old(taskList.tasks[i].reminderTime))
      ensures taskList.storage.todoList == Some(Records(taskList.tasks))
    {
      assert reminderTimers[id].task in taskList.tasks;
      taskList.ClearTaskReminder(id);
      ClearReminderTimer(id);
    }

    /**
     * Toggles the first task with id `id`; when that task is now completed,
     * its timer is cleared.
     */
    method HandleToggleTask(id: int)
      requires Valid()
      modifies this, taskList.storage, taskList.tasks
      ensures Valid() && taskList.tasks == old(taskList.tasks)
      ensures var k := FindIndex(taskList.tasks, id);
        forall i :: 0 <= i < |taskList.tasks| ==>
          taskList.tasks[i].completed ==
            (if k == Some(i) then !old(taskList.tasks[i].completed) else old(taskList.tasks[i].completed)) &&
          taskList.tasks[i].reminderTime == old(taskList.tasks[i].reminderTime)
      ensures var k := FindIndex(taskList.tasks, id);
        reminderTimers ==
          if k.Some? && taskList.tasks[k.value].completed then old(reminderTimers) - {id} else old(reminderTimers)
      ensures taskList.storage.todoList ==
        if FindIndex(taskList.tasks, id).None? then old(taskList.storage.todoList) else Some(Records(taskList.tasks))
      ensures currentFilter == old(currentFilter) && nextHandle == old(nextHandle)
    {
      taskList.ToggleTaskComplete(id);
      var k := FindIndex(taskList.tasks, id);
      if k.Some? && taskList.tasks[k.value].completed {
        ClearReminderTimer(id);
      }
    }

    /** Clears the timer of `id`, then deletes every task with that id. */
    method HandleDeleteTask(id: int)
      requires Valid()
      modifies this, taskList, taskList.storage
      ensures Valid()
      ensures taskList.tasks == WithoutId(old(taskList.tasks), id)
      ensures reminderTimers == old(reminderTimers) - {id}
      ensures taskList.storage.todoList == Some(Records(taskList.tasks))
      ensures currentFilter == old(currentFilter) && nextHandle == old(nextHandle)
    {
      ClearReminderTimer(id);
      var _ := taskList.Delete(id);
    }

    /**
     * Sets the reminder of the first task with id `id`; when that task then
     * has a reminder, a timer is armed for it (if its id has none yet).
     */
    method HandleSetReminder(id: int, time: int, now: int)
      requires Valid()
      modifies this, taskList.storage, taskList.tasks
      ensures Valid() && taskList.tasks == old(taskList.tasks)
      ensures var k := FindIndex(taskList.tasks, id);
        forall i :: 0 <= i < |taskList.tasks| ==>
          taskList.tasks[i].completed == old(taskList.tasks[i].completed) &&
          taskList.tasks[i].reminderTime ==
            (if k == Some(i) && now < time then Some(time) else old(taskList.tasks[i].reminderTime))
      ensures var k := FindIndex(taskList.tasks, id);
        reminderTimers ==
          if k.Some? && taskList.tasks[k.value].reminderTime.Some? && id !in old(reminderTimers)
          then old(reminderTimers)[id := Timer(old(nextHandle), taskList.tasks[k.value])]
          else old(reminderTimers)
      ensures taskList.storage.todoList ==
        if FindIndex(taskList.tasks, id).None? then old(taskList.storage.todoList) else Some(Records(taskList.tasks))
      ensures currentFilter == old(currentFilter)
      ensures nextHandle == if id in reminderTimers && id !in old(reminderTimers) then old(nextHandle) + 1 else old(nextHandle)
    {
      taskList.SetTaskReminder(id, time, now);
      ArmFirst(id);
    }

    /** Arms a timer for the first task with id `id` when it has a reminder. */
    method ArmFirst(id: int)
      requires Valid()
      modifies this
      ensures Valid() && currentFilter == old(currentFilter)
      ensures var k := FindIndex(taskList.tasks, id);
        reminderTimers ==
          if k.Some? && taskList.tasks[k.value].reminderTime.Some? && id !in old(reminderTimers)
          then old(reminderTimers)[id := Timer(old(nextHandle), taskList.tasks[k.value])]
          else old(reminderTimers)
      ensures nextHandle == if id in reminderTimers && id !in old(reminderTimers) then old(nextHandle) + 1 else old(nextHandle)
    {
      var k := FindIndex(taskList.tasks, id);
      if k.Some? && taskList.tasks[k.value].reminderTime.Some? {
        StartReminderTimer(taskList.tasks[k.value]);
      }
    }

    /** Adds a task; timers are untouched. */
    method HandleAddTask(title: string, now: int)
      requires Valid()
      modifies this, taskList, taskList.storage
      ensures Valid() && reminderTimers == old(reminderTimers)
      ensures title == "" ==> taskList.tasks == old(taskList.tasks)
      ensures title != "" ==>
        |taskList.tasks| == |old(taskList.tasks)| + 1 &&
        taskList.tasks[..|old(taskList.tasks)|] == old(taskList.tasks) &&
        fresh(taskList.tasks[|old(taskList.tasks)|]) &&
        taskList.tasks[|old(taskList.tasks)|].Record() == TaskRecord(title, false, DefaultUserId, now, None)
      ensures taskList.storage.todoList == if title == "" then old(taskList.storage.todoList) else Some(Records(taskList.tasks))
      ensures currentFilter == old(currentFilter) && nextHandle == old(nextHandle)
    {
      var _ := taskList.Add(title, now);
    }

    /** Switches the current filter, unless the given one is empty. */
    method HandleFilterChange(filter: string)
      requires Valid()
      modifies this
      ensures Valid()
      ensures currentFilter == if filter == "" then old(currentFilter) else filter
      ensures reminderTimers == old(reminderTimers) && nextHandle == old(nextHandle)
    {
      if filter == "" {
        return;
      }
      currentFilter := filter;
    }

    /**
     * Start-up on a freshly constructed application: loads the tasks and
     * arms a timer for every id whose task carries a reminder.
     */
    method Init() returns (fromStorage: bool)
      requires Valid() && reminderTimers == map[]
      modifies this, taskList
      ensures Valid() && currentFilter == old(currentFilter)
      ensures fromStorage <==> taskList.storage.todoList.Some? && |taskList.storage.todoList.value| > 0
      ensures fromStorage ==> taskList.storage.todoList == Some(Records(taskList.tasks))
      ensures fromStorage ==> fresh(set t | t in taskList.tasks)
      ensures !fromStorage ==> taskList.tasks == old(taskList.tasks)
      ensures forall i :: 0 <= i < |taskList.tasks| && taskList.tasks[i].reminderTime.Some? ==>
        taskList.tasks[i].id in reminderTimers
      ensures forall id :: id in reminderTimers ==> FirstWithReminder(taskList.tasks, id, reminderTimers[id].task)
    {
      fromStorage := taskList.Load();
      ghost var loaded := Records(taskList.tasks);
      ArmReminders();
      assert Records(taskList.tasks) == loaded;
    }

    /**
     * The start-up pass over the tasks: arms a timer for each task with a
     * reminder, so the ids with a timer are exactly those of tasks with a
     * reminder.
     */
    method ArmReminders()
      requires Valid() && reminderTimers == map[]
      modifies this
      ensures Valid() && currentFilter == old(currentFilter)
      ensures forall i :: 0 <= i < |taskList.tasks| && taskList.tasks[i].reminderTime.Some? ==>
        taskList.tasks[i].id in reminderTimers
      ensures forall id :: id in reminderTimers ==> FirstWithReminder(taskList.tasks, id, reminderTimers[id].task)
    {
      var tasks := taskList.tasks;
      for i := 0 to |tasks|
        invariant Valid() && currentFilter == old(currentFilter)
        invariant forall j :: 0 <= j < i && tasks[j].reminderTime.Some? ==> tasks[j].id in reminderTimers
        invariant forall id :: id in reminderTimers ==> FirstWithReminder(tasks[..i], id, reminderTimers[id].task)
      {
        ArmNext(tasks, i);
      }
      assert tasks[..|tasks|] == tasks;
    }

    /**
     * One step of the start-up pass: arms a timer for `tasks[i]` when it has
     * a reminder, keeping the pass's invariant over one more task.
     */
    method ArmNext(tasks: seq<Task>, i: nat)
      requires Valid() && tasks == taskList.tasks && i < |tasks|
      requires forall j :: 0 <= j < i && tasks[j].reminderTime.Some? ==> tasks[j].id in reminderTimers
      requires forall id :: id in reminderTimers ==> FirstWithReminder(tasks[..i], id, reminderTimers[id].task)
      modifies this
      ensures Valid() && currentFilter == old(currentFilter)
      ensures forall j :: 0 <= j < i + 1 && tasks[j].reminderTime.Some? ==> tasks[j].id in reminderTimers
      ensures forall id :: id in reminderTimers ==> FirstWithReminder(tasks[..i + 1], id, reminderTimers[id].task)
    {
      assert tasks[..i + 1] == tasks[..i] + [tasks[i]];
      forall id | id in reminderTimers
        ensures FirstWithReminder(tasks[..i + 1], id, reminderTimers[id].task)
      {
        FirstWithReminderAppend(tasks[..i], tasks[i], id, reminderTimers[id].task);
      }
      if tasks[i].reminderTime.Some? && tasks[i].id !in reminderTimers {
        FirstWithReminderLast(tasks[..i], tasks[i]);
        StartReminderTimer(tasks[i]);
      }
    }
  }
}
