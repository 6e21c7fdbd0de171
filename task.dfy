/**
 * The `Task` entity of script-oop.js: one to-do item with an identity, a
 * title, a completion flag and an optional reminder time.
 *
 * Times are milliseconds since the epoch, as `Date.now()` and
 * `Date.prototype.getTime()` give them; script-oop.js stores a reminder as an
 * ISO string, which is a different spelling of the same instant.
 */
module TaskEntity {
  import opened Wrappers

  /** The owner used when none is given (`userId = 1`). */
  const DefaultUserId: int := 1

  /** The fields `JSON.stringify` writes for a task: what local storage holds. */
  datatype TaskRecord = TaskRecord(
    title: string,
    completed: bool,
    userId: int,
    id: int,
    reminderTime: Option<int>)

  class Task {
    // Never reassigned after construction.
    const title: string
    const userId: int
    const id: int
    // Updated in place by the methods below.
    var completed: bool
    var reminderTime: Option<int>

    /** The task's current field values. */
    function Record(): TaskRecord
      reads this
    {
      TaskRecord(title, completed, userId, id, reminderTime)
    }

    constructor (title: string, completed: bool, userId: int, id: int, reminderTime: Option<int>)
      ensures Record() == TaskRecord(title, completed, userId, id, reminderTime)
    {
      this.title := title;
      this.completed := completed;
      this.userId := userId;
      this.id := id;
      this.reminderTime := reminderTime;
    }

    /** Flips the completion flag and returns its new value. */
    method ToggleComplete() returns (c: bool)
      modifies this
      ensures completed == !old(completed) && c == completed
      ensures reminderTime == old(reminderTime)
    {
      completed := !completed;
      c := completed;
    }

    /**
     * Stores `time` as the reminder when it lies strictly after `now`;
     * otherwise the user is told (the `alert`) and nothing changes.
     */
    method SetReminder(time: int, now: int) returns (rejected: bool)
      modifies this
      ensures rejected <==> time <= now
      ensures reminderTime == if rejected then old(reminderTime) else Some(time)
      ensures completed == old(completed)
    {
      if time <= now {
        return true;
      }
      reminderTime := Some(time);
      rejected := false;
    }

    /** Drops the reminder, whatever it was. */
    method ClearReminder()
      modifies this
      ensures reminderTime == None
      ensures completed == old(completed)
    {
      reminderTime := None;
    }
  }
}
