# To-do list: task collection and reminder timers

A Dafny model of the state logic of the object-oriented to-do list script
(`script-oop.js`):

- a `Task` entity with a title, a completion flag, an owner, an id and an
  optional reminder time;
- the `TaskList` that owns the ordered tasks. It adds, deletes and filters
  them, updates the first task with a given id, and saves the whole list to
  local storage after each change;
- the `App` bookkeeping of reminder timers. It keeps a map from task id to
  interval timer and runs a polling callback that notifies once a reminder
  falls due. Its handlers combine task-list updates with arming and
  disarming timers.

Layout:

- `wrappers.dfy`: `Option`.
- `task.dfy` (module `TaskEntity`): `TaskRecord`, the field values that
  `JSON.stringify` saves, and the class `Task`.
- `task_list.dfy` (module `TaskCollection`): the queries over a sequence of
  tasks (`FindIndex`, `WithoutId`, `Select`, `Records`) with their lemmas.
  It also holds the class `Storage`, the "todoList" entry of local storage,
  and the class `TaskList`.
- `app.dfy` (module `Application`): the class `App`. `Tick(id, now)` is one
  run of the interval callback of the timer registered for `id`.
- `scenarios.dfy` (module `Scenarios`): properties that span several calls,
  written as client methods.

Time is an integer number of milliseconds. It is a parameter `now`, never a
clock read. A reminder is `Option<int>`: the source stores an ISO string
for the same instant and compares the instants. Timer handles are positive
naturals from a counter, as a browser's `setInterval` hands them out.

In these places the model follows the code, where one might expect
otherwise:

- `add` rejects only the empty title. Trimming whitespace is done by the
  form handler (script-oop.js:319-320), not by `add`.
- A rejected reminder time produces an `alert` and a plain return, not an
  exception. `SetReminder` returns `rejected`.
- Completing a task disarms its timer but does not clear its
  `reminderTime`.
- Ids are `Date.now()` values, and nothing enforces their uniqueness. The
  model does not assume it. Lookups act on the first task with the id;
  `delete` removes every task with the id. One consequence: a timer
  watches the first task of its id that has a reminder, but the due tick
  clears the reminder of the first task with the id (script-oop.js:432,
  129-130). When an earlier task with the same id has no reminder, the
  watched task keeps its reminder, so it is armed and notified again after
  every reload.

## Model

| member | source | states |
|---|---|---|
| TaskEntity.Task.constructor | script-oop.js:2-8 | the new task holds exactly the given title, flag, owner, id and reminder |
| TaskEntity.Task.ToggleComplete | script-oop.js:26-28 | the flag is negated, the new value is returned, the reminder is untouched |
| TaskEntity.Task.SetReminder | script-oop.js:30-40 | a time not strictly after `now` is rejected and leaves the reminder as it was; otherwise the reminder becomes that time |
| TaskEntity.Task.ClearReminder | script-oop.js:42-44 | the reminder is none afterwards, whatever it was; the flag is untouched |
| TaskCollection.Records | script-oop.js:78 | the saved list has exactly one record per task (RecordsAt says which) |
| TaskCollection.FindIndex | script-oop.js:113 | the result is the first index whose task has the id, or none exactly when no task has it |
| TaskCollection.WithoutId | script-oop.js:93 | the result holds exactly the tasks whose id differs, each one taken from the input |
| TaskCollection.Select | script-oop.js:104-106 | the result holds exactly the tasks with the given completion flag, each one taken from the input |
| TaskCollection.RecordsAt | script-oop.js:78 | the saved record at each position holds the current fields of the task at that position |
| TaskCollection.RecordsAppend | script-oop.js:78 | saving a concatenation saves the concatenation of the two saved lists |
| TaskCollection.WithoutIdAppend | script-oop.js:93 | deleting distributes over concatenation, so the survivors keep their relative order |
| TaskCollection.WithoutIdUnchanged | script-oop.js:93 | deleting leaves the list equal to itself if and only if no task carries the id |
| TaskCollection.WithoutIdIdempotent | script-oop.js:93 | deleting an id a second time changes nothing |
| TaskCollection.WithoutIdDistinct | script-oop.js:93 | deleting keeps the task objects pairwise distinct |
| TaskCollection.SelectAppend | script-oop.js:104-106 | filtering by completion distributes over concatenation, so the selection keeps the list's order |
| TaskCollection.SelectMultiset | script-oop.js:103-106 | the fulfilled and unfulfilled selections together hold every task of the list exactly as often as the list does |
| TaskCollection.SelectPartition | script-oop.js:103-106 | the fulfilled and unfulfilled selections add up to the list as multisets and in length, and share no task |
| TaskCollection.Storage.constructor | script-oop.js:68 | the storage entry holds the given saved list, or nothing |
| TaskCollection.TaskList.constructor | script-oop.js:63-65 | a new list is empty and valid |
| TaskCollection.TaskList.Save | script-oop.js:77-79 | the storage entry afterwards holds the records of all tasks, in order |
| TaskCollection.TaskList.Load | script-oop.js:67-75 | a non-empty saved list is restored as newly allocated, distinct tasks (the set of them is fresh, so callers may change them) whose records equal it; otherwise the tasks are untouched |
| TaskCollection.TaskList.Revive | script-oop.js:71 | the restored tasks form a fresh set of pairwise distinct objects whose records are exactly the saved ones, in order |
| TaskCollection.TaskList.Add | script-oop.js:81-90 | an empty title returns nothing and changes nothing; any other title appends exactly one fresh, not completed task with that title, owner 1 and id `now`; earlier records are unchanged and the list is saved |
| TaskCollection.TaskList.Delete | script-oop.js:92-99 | the tasks become exactly the earlier ones whose id differs, in order; the result is the new list and it is saved |
| TaskCollection.TaskList.GetFiltered | script-oop.js:101-110 | "all" gives the list itself; "fulfilled" and "unfulfilled" give exactly the tasks with that flag; every other kind gives no result |
| TaskCollection.TaskList.ToggleTaskComplete | script-oop.js:112-118 | only the flag of the first task with the id is negated and the list is saved; with no such task nothing changes |
| TaskCollection.TaskList.SetTaskReminder | script-oop.js:120-126 | only the first task with the id gets the reminder, unless the time is not after `now`; the list is saved; with no such task nothing changes |
| TaskCollection.TaskList.ClearTaskReminder | script-oop.js:128-134 | only the first task with the id loses its reminder and the list is saved; with no such task nothing changes |
| Application.App.constructor | script-oop.js:346-351 | a new application has an empty list, the filter "all" and no timers |
| Application.App.StartReminderTimer | script-oop.js:416-443 | a null task, one without a reminder, or one whose id already has a timer changes nothing; otherwise one timer with a new handle is added for its id; the invariant keeps at most one timer per id, with distinct handles, each watching a task still in the list |
| Application.App.ClearReminderTimer | script-oop.js:445-451 | the id's timer is removed if it exists; nothing else changes, so clearing twice equals clearing once |
| Application.App.Tick | script-oop.js:422-440 | no timer: no effect; watched task without a reminder: the timer is removed; reminder due at `now`: the title is the notification, the first task with the id loses its reminder and the timer is removed; reminder not due: nothing changes |
| Application.App.FireReminder | script-oop.js:428-436 | the first task with the id, which exists because the timer watches it, loses its reminder; the list is saved; the id's timer is removed |
| Application.App.HandleToggleTask | script-oop.js:376-385 | the task is toggled as by the list; the id's timer is removed exactly when that task ends up completed; the filter and the handle counter are unchanged |
| Application.App.HandleDeleteTask | script-oop.js:387-391 | the id's timer is removed and every task with the id is deleted; no remaining timer watches a deleted task; the filter and the handle counter are unchanged |
| Application.App.HandleSetReminder | script-oop.js:393-402 | the reminder is set as by the list; a timer is armed for the id exactly when the task then has a reminder and the id had no timer, and only then is a new handle used; the filter is unchanged |
| Application.App.ArmFirst | script-oop.js:396-399 | a timer is added for the id exactly when its first task has a reminder and the id had no timer, with the next handle and that task; the handle counter advances exactly then |
| Application.App.HandleAddTask | script-oop.js:404-407 | the task is added as by the list and the list is saved unless the title is empty; the timers, the filter and the handle counter are unchanged |
| Application.App.HandleFilterChange | script-oop.js:409-414 | an empty filter is ignored; any other becomes the current filter; the timers, the handle counter and the invariant are kept |
| Application.App.Init | script-oop.js:353-369 | the saved list is used exactly when it is present and not empty; after loading, every task with a reminder has a timer for its id, and each timer watches the first task with its id and a reminder; loaded tasks are newly allocated; the filter is unchanged |
| Application.App.ArmReminders | script-oop.js:362-364 | the start-up pass arms timers for exactly the ids of the tasks with a reminder, each watching the first such task of its id, as the in-order `forEach` does |
| Application.App.ArmNext | script-oop.js:362-364 | one step of the start-up pass: the task at the step's position gets a timer exactly when it has a reminder and its id has none, so the pass's invariant covers one more task |
| Application.FirstWithReminderAppend | script-oop.js:362-364 | a later task never displaces the first task of an id that has a reminder |
| Application.FirstWithReminderLast | script-oop.js:362-364 | a task with a reminder whose id no earlier task with a reminder has is the first such task of its id |
| Scenarios.ToggleTwice | script-oop.js:112-118 | toggling the same id twice restores every task's completion flag and reminder |
| Scenarios.ClearTaskReminderTwice | script-oop.js:128-134 | two calls of `clearTaskReminder` reach the state one call reaches |
| Scenarios.ClearReminderTimerTwice | script-oop.js:445-451 | two calls of `_clearReminderTimer` reach the state one call reaches |
| Scenarios.ToggleScenario | script-oop.js:101-118 | one new task "A" with id 1, once toggled, is the only fulfilled task, and no task is unfulfilled |
| Scenarios.ReminderScenario | script-oop.js:393-451 | a reminder set a minute ahead: a tick before it is due gives no notification, the first tick after gives "A", a later tick gives none; the due tick clears the task's reminder |
| Scenarios.SaveLoadRoundTrip | script-oop.js:67-79 | saving a non-empty list and loading it back restores it from storage with the same records, in order |
| Scenarios.StartUpScenario | script-oop.js:353-440 | start-up from a saved task with a reminder restores it and arms its timer; the tick at the reminder time notifies with its title and clears the reminder |

## Left out

- The `UI` class and the `DOMContentLoaded` bootstrap (script-oop.js:185-343, 454-459) are rendering and event wiring. `_render` changes no state itself and is not modelled, and neither is `currentFilter`'s use in rendering; in the interval callback, though, it runs between `clearTaskReminder` and `_clearReminderTimer` (script-oop.js:432-435), so an exception it raises matters there (see the `Tick` line below).
- The `fetch` helpers `_fetchPatch`, `_fetchPost` and `_fetchDelete` are network calls whose outcome is only logged or alerted. In the model they do nothing.
- The remote seed branch of `load` (script-oop.js:73, 136-151) is network input. On that branch, when the request succeeds, `_fetchGet` replaces the tasks with the fetched entries and saves them (script-oop.js:143-146); `Load` does not model this and leaves the tasks as they were. The seeded entries are plain objects in the source: they have no `Task` methods and carry `id` rather than `_id`.
- `JSON.parse`/`JSON.stringify` are modelled as a `TaskRecord` per task. A saved list that is missing fields, and the constructor defaults such a list would trigger, are not modelled.
- `setInterval`'s 10-second period, `setTimeout`'s 1-second notification delay and the `alert` texts are timing and user interface. `Tick` is called explicitly, and its notification is returned rather than shown.
- `Date.now()` and `new Date()` are the parameter `now`. A reminder string that does not parse as a date is not modelled: time is always an integer. In the source, such a string makes `toISOString` throw.
- The `try`/`catch` in the interval callback (script-oop.js:423, 437-439): nothing in the model throws.
- Application.App.Tick: in the source, an exception from `save` or `_render` in the due branch is caught and skips `_clearReminderTimer` (script-oop.js:432-439), so the timer stays armed until the next poll, which then finds no reminder and clears it (script-oop.js:424-426). `_render` throws, for example, when `currentFilter` is not one of the three kinds, because `getFiltered` then returns nothing and `renderTasks` calls `forEach` on it. The model always removes the timer on the due tick.
- `add` is typed on strings, so the empty string is the only falsy title.
- Application.App.StartReminderTimer: requires the task to be in the list, as at both of its call sites. A timer for a task outside the list is not modelled.
- Application.App.Init: requires an application without timers, as after the constructor, its only caller.
- script.js is not part of this model. It is the older global-variable version of the page.
