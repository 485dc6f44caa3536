/** The record shared by both stores (Models/Task.swift) and the errors the services throw. */
module TaskModel {
  import opened Wrappers

  /** A point in time. Dates are compared, never inspected, so any total order will do. */
  type Date = int

  /** Which store a record belongs to, with that store's own identifier for it. */
  datatype Source =
    | GoogleTasks(taskId: string)
    | AppleReminders(reminderId: string)

  /** `struct Task`: `id` is a `let`, everything else a `var`; `needsSync` defaults to false. */
  datatype Task = Task(
    id: string,
    title: string,
    notes: Option<string>,
    dueDate: Option<Date>,
    isCompleted: bool,
    lastModified: Date,
    source: Source,
    needsSync: bool)

  /** The memberwise initialiser that leaves `needsSync` at its default. */
  function NewTask(id: string, title: string, notes: Option<string>, dueDate: Option<Date>,
                   isCompleted: bool, lastModified: Date, source: Source): (t: Task)
    ensures t.id == id && t.title == title && t.notes == notes && t.dueDate == dueDate
    ensures t.isCompleted == isCompleted && t.lastModified == lastModified && t.source == source
    ensures !t.needsSync
  {
    Task(id, title, notes, dueDate, isCompleted, lastModified, source, false)
  }

  /** `var copy = task; copy.source = s` */
  function WithSource(t: Task, s: Source): (r: Task)
    ensures r.source == s
    ensures r.id == t.id && r.title == t.title && r.notes == t.notes && r.dueDate == t.dueDate
    ensures r.isCompleted == t.isCompleted && r.lastModified == t.lastModified && r.needsSync == t.needsSync
  {
    t.(source := s)
  }

  /** `var copy = target; copy.title = ...; copy.notes = ...; copy.dueDate = ...; copy.isCompleted = ...`
      with the four values taken from `from`. */
  function CopyContent(target: Task, from: Task): (r: Task)
    ensures r.id == target.id && r.source == target.source
    ensures r.lastModified == target.lastModified && r.needsSync == target.needsSync
    ensures r.title == from.title && r.notes == from.notes
    ensures r.dueDate == from.dueDate && r.isCompleted == from.isCompleted
  {
    target.(title := from.title, notes := from.notes, dueDate := from.dueDate, isCompleted := from.isCompleted)
  }

  /** The errors thrown by the two store services (the `NSLocalizedDescriptionKey` texts),
      plus a failure of the remote library itself, numbered by the remote call that failed. */
  datatype Error =
    | TaskListNotInitialized   // "Task list not initialized"
    | NoTaskLists              // "No task lists found"
    | RemindersListNotFound    // "Reminders list not found"
    | InvalidTaskSource        // "Invalid task source"
    | ReminderNotFound         // "Reminder not found"
    | RemoteFailure(call: nat) // an error passed back by the Google client or EventKit

  /** Decimal digits of `n`: the server-assigned identifiers are built from a counter. */
  function Digits(n: nat): (s: string)
    ensures |s| >= 1
    ensures forall i :: 0 <= i < |s| ==> '0' <= s[i] <= '9'
  {
    if n < 10 then [(48 + n) as char] else Digits(n / 10) + [(48 + n % 10) as char]
  }
}
