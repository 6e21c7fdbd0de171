/**
 * Properties that span several calls, stated as client methods whose
 * postconditions follow from the contracts of the task list and the
 * application alone.
 */
module Scenarios {
  import opened Wrappers
  import opened TaskEntity
  import opened TaskCollection
  import opened Application

  /** Toggling the same id twice gives back the fields every task started with. */
  method ToggleTwice(list: TaskList, id: int)
    requires list.Valid()
    modifies list.storage, list.tasks
    ensures list.Valid() && list.tasks == old(list.tasks)
    ensures forall i :: 0 <= i < |list.tasks| ==>
      list.tasks[i].completed == old(list.tasks[i].completed) &&
      list.tasks[i].reminderTime == old(list.tasks[i].reminderTime)
  {
    list.ToggleTaskComplete(id);
    list.ToggleTaskComplete(id);
  }

  /** Clearing a task's reminder twice ends in the state one clear gives. */
  method ClearTaskReminderTwice(list: TaskList, id: int)
    requires list.Valid()
    modifies list.storage, list.tasks
    ensures list.tasks == old(list.tasks) && list.Valid()
    ensures var k := FindIndex(list.tasks, id);
      forall i :: 0 <= i < |list.tasks| ==>
        list.tasks[i].completed == old(list.tasks[i].completed) &&
        list.tasks[i].reminderTime == (if k == Some(i) then None else old(list.tasks[i].reminderTime))
    ensures list.storage.todoList ==
      if FindIndex(list.tasks, id).None? then old(list.storage.todoList) else Some(Records(list.tasks))
  {
    list.ClearTaskReminder(id);
    list.ClearTaskReminder(id);
  }

  /** Clearing a timer twice ends in the state one clear gives. */
  method ClearReminderTimerTwice(app: App, id: int)
    requires app.Valid()
    modifies app
    ensures app.Valid()
    ensures app.reminderTimers == old(app.reminderTimers) - {id}
    ensures app.nextHandle == old(app.nextHandle) && app.currentFilter == old(app.currentFilter)
  {
    app.ClearReminderTimer(id);
    app.ClearReminderTimer(id);
  }

  /** A single unfinished task, once toggled, is the one fulfilled task. */
  method ToggleScenario(storage: Storage) returns (list: TaskList)
    modifies storage
    ensures list.GetFiltered("unfulfilled") == Some([])
    ensures list.GetFiltered("fulfilled") == Some(list.tasks) && |list.tasks| == 1
    ensures list.tasks[0].Record() == TaskRecord("A", true, DefaultUserId, 1, None)
  {
    list := new TaskList(storage);
    var added := list.Add("A", 1);
    list.ToggleTaskComplete(1);
    var task := added.value;
    assert list.tasks == [task];
    assert Select(list.tasks, true) == [task];
    assert Select(list.tasks, false) == [];
  }

  /**
   * A reminder set one minute ahead: a tick before it is due does nothing,
   * the first tick after it is due notifies with the title, and a later tick
   * notifies no more; the due tick clears the task's reminder.
   */
  method ReminderScenario(storage: Storage)
    returns (early: Option<string>, due: Option<string>, late: Option<string>, cleared: Option<int>)
    modifies storage
    ensures early == None && due == Some("A") && late == None
    ensures cleared == None
  {
    var app := new App(storage);
    app.HandleAddTask("A", 1000);
    app.HandleSetReminder(1000, 61000, 1000);
    assert 1000 in app.reminderTimers;
    early := app.Tick(1000, 30000);
    due := app.Tick(1000, 61000);
    cleared := app.taskList.tasks[0].reminderTime;
    late := app.Tick(1000, 71000);
  }

  /** Saving a non-empty list and loading it back gives the same records, in order. */
  method SaveLoadRoundTrip(list: TaskList) returns (fromStorage: bool)
    requires list.Valid() && |list.tasks| > 0
    modifies list, list.storage
    ensures fromStorage && list.Valid()
    ensures Records(list.tasks) == old(Records(list.tasks))
  {
    list.Save();
    fromStorage := list.Load();
  }

  /**
   * Start-up from a saved list holding one task with a reminder: the task is
   * restored, its timer is armed, and the first tick at the reminder time
   * notifies with its title and clears the reminder.
   */
  method StartUpScenario() returns (fromStorage: bool, due: Option<string>, cleared: Option<int>)
    ensures fromStorage && due == Some("A") && cleared == None
  {
    var storage := new Storage(Some([TaskRecord("A", false, DefaultUserId, 1000, Some(61000))]));
    var app := new App(storage);
    fromStorage := app.Init();
    assert |app.taskList.tasks| == 1;
    RecordsAt(app.taskList.tasks, 0);
    assert app.taskList.tasks[0].reminderTime == Some(61000);
    due := app.Tick(1000, 61000);
    cleared := app.taskList.tasks[0].reminderTime;
  }
}
