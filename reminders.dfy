/** Services/RemindersService.swift without the access request: the "GTasks" list bootstrap, the
    mapping from reminders to `Task`s, and the create/update/delete calls. The event store is an
    in-memory set of calendars and reminders; saving, committing and removing are the calls that can
    throw, and call number n throws iff n is in `faults`. A reminder's date components stand for the
    date they were made from. */
module Reminders {
  import opened Wrappers
  import opened TaskModel
  import opened ServiceCalls

  /** `EKCalendar` of type reminder. */
  datatype Calendar = Calendar(identifier: string, title: string)

  /** `EKReminder`, with the calendar it belongs to named by identifier. */
  datatype Reminder = Reminder(
    calendarItemIdentifier: string,
    calendarId: string,
    title: Option<string>,
    notes: Option<string>,
    dueDate: Option<Date>,
    startDate: Option<Date>,
    isCompleted: bool,
    lastModifiedDate: Option<Date>)

  /** `listName` */
  const ListName := "GTasks"

  /** The `Task` that `fetchReminders`, `createReminder` and `updateReminder` build from a reminder:
      its identifier is both the id and the source's `reminderId`, a missing title reads as "". */
  function ReminderToTask(r: Reminder, now: Date): (t: Task)
    ensures t.id == r.calendarItemIdentifier && t.source == AppleReminders(t.id)
    ensures (r.title.Some? ==> t.title == r.title.value) && (r.title.None? ==> t.title == "")
    ensures t.notes == r.notes && t.dueDate == r.dueDate && t.isCompleted == r.isCompleted
    ensures t.lastModified == r.lastModifiedDate.GetOr(now) && !t.needsSync
  {
    NewTask(r.calendarItemIdentifier, r.title.GetOr(""), r.notes, r.dueDate, r.isCompleted,
            r.lastModifiedDate.GetOr(now), AppleReminders(r.calendarItemIdentifier))
  }

  /** `reminders.map(ReminderToTask)`: every reminder gives one task, in order. */
  function RemindersToTasks(rs: seq<Reminder>, now: Date): (ts: seq<Task>)
    ensures |ts| == |rs|
    ensures forall i :: 0 <= i < |ts| ==>
      ts[i].id == rs[i].calendarItemIdentifier && ts[i].source == AppleReminders(ts[i].id)
    decreases |rs|
  {
    if rs == [] then []
    else RemindersToTasks(rs[..|rs| - 1], now) + [ReminderToTask(rs[|rs| - 1], now)]
  }

  /** Mapping two runs of reminders is mapping each. */
  lemma {:induction false} RemindersToTasksConcat(a: seq<Reminder>, b: seq<Reminder>, now: Date)
    ensures RemindersToTasks(a + b, now) == RemindersToTasks(a, now) + RemindersToTasks(b, now)
    decreases |b|
  {
    if b == [] {
      assert a + b == a;
    } else {
      assert (a + b)[..|a + b| - 1] == a + b[..|b| - 1];
      RemindersToTasksConcat(a, b[..|b| - 1], now);
    }
  }

  /** `predicateForReminders(in: [calendar])`: the reminders of one calendar, in store order. */
  function InCalendar(rs: seq<Reminder>, calendarId: string): (r: seq<Reminder>)
    ensures |r| <= |rs|
    ensures forall i :: 0 <= i < |r| ==> r[i].calendarId == calendarId && r[i] in rs
    decreases |rs|
  {
    if rs == [] then []
    else
      var last := rs[|rs| - 1];
      InCalendar(rs[..|rs| - 1], calendarId) + (if last.calendarId == calendarId then [last] else [])
  }

  /** A reminder belongs to a calendar's listing iff it is stored in that calendar. */
  lemma {:induction false} InCalendarMembers(rs: seq<Reminder>, calendarId: string, x: Reminder)
    ensures x in InCalendar(rs, calendarId) <==> x in rs && x.calendarId == calendarId
    decreases |rs|
  {
    if rs != [] {
      InCalendarMembers(rs[..|rs| - 1], calendarId, x);
      assert rs == rs[..|rs| - 1] + [rs[|rs| - 1]];
    }
  }

  /** `calendars.first(where: { $0.title == listName })`, as a position. */
  function FirstCalendarTitled(cs: seq<Calendar>, title: string): (r: Option<nat>)
    ensures r.Some? ==> r.value < |cs| && cs[r.value].title == title
    ensures r.Some? ==> forall j :: 0 <= j < r.value ==> cs[j].title != title
    ensures r.None? ==> forall j :: 0 <= j < |cs| ==> cs[j].title != title
    decreases |cs|
  {
    if cs == [] then None
    else if cs[0].title == title then Some(0)
    else
      var r := FirstCalendarTitled(cs[1..], title);
      if r.None? then None else Some(r.value + 1)
  }

  /** A calendar appended after calendars none of which has the title is the first with it. */
  lemma {:induction false} FirstCalendarTitledAppend(cs: seq<Calendar>, c: Calendar, title: string)
    requires FirstCalendarTitled(cs, title).None? && c.title == title
    ensures FirstCalendarTitled(cs + [c], title) == Some(|cs|)
    decreases |cs|
  {
    if cs != [] {
      assert (cs + [c])[1..] == cs[1..] + [c];
      FirstCalendarTitledAppend(cs[1..], c, title);
    }
  }

  /** `reminders.first { $0.calendarItemIdentifier == id }` over a calendar's reminders, as a position
      in the whole store. */
  function FirstWithId(rs: seq<Reminder>, calendarId: string, id: string): (r: Option<nat>)
    ensures r.Some? ==> r.value < |rs| && rs[r.value].calendarId == calendarId
                        && rs[r.value].calendarItemIdentifier == id
    ensures r.Some? ==> forall j :: 0 <= j < r.value ==>
                          rs[j].calendarId != calendarId || rs[j].calendarItemIdentifier != id
    ensures r.None? ==> forall j :: 0 <= j < |rs| ==>
                          rs[j].calendarId != calendarId || rs[j].calendarItemIdentifier != id
    decreases |rs|
  {
    if rs == [] then None
    else if rs[0].calendarId == calendarId && rs[0].calendarItemIdentifier == id then Some(0)
    else
      var r := FirstWithId(rs[1..], calendarId, id);
      if r.None? then None else Some(r.value + 1)
  }

  /** The reminder `createReminder` saves for a task: the task's title, notes and completion, and its
      due date as both due and start date when it has one. */
  function Drafted(task: Task, id: string, calendarId: string, now: Date): (r: Reminder)
    ensures r.calendarItemIdentifier == id && r.calendarId == calendarId
    ensures r.title == Some(task.title) && r.notes == task.notes && r.isCompleted == task.isCompleted
    ensures r.dueDate == task.dueDate && r.startDate == task.dueDate
    ensures r.lastModifiedDate == Some(now)
  {
    Reminder(id, calendarId, Some(task.title), task.notes, task.dueDate, task.dueDate,
             task.isCompleted, Some(now))
  }

  /** The reminder `updateReminder` saves: title, notes, due date (cleared when the task has none)
      and completion from the task; identifier, calendar and start date kept. */
  function Edited(r: Reminder, task: Task, now: Date): (e: Reminder)
    ensures e.calendarItemIdentifier == r.calendarItemIdentifier && e.calendarId == r.calendarId
    ensures e.startDate == r.startDate
    ensures e.title == Some(task.title) && e.notes == task.notes
    ensures e.dueDate == task.dueDate && e.isCompleted == task.isCompleted
    ensures e.lastModifiedDate == Some(now)
  {
    r.(title := Some(task.title), notes := task.notes, dueDate := task.dueDate,
       isCompleted := task.isCompleted, lastModifiedDate := Some(now))
  }

  /** A task written into a reminder reads back with the content it was written with. */
  lemma WrittenContentReadsBack(task: Task, r: Reminder, id: string, calendarId: string, now: Date)
    ensures var back := ReminderToTask(Drafted(task, id, calendarId, now), now);
      back.id == id && back.source == AppleReminders(id) && back.title == task.title &&
      back.notes == task.notes && back.dueDate == task.dueDate && back.isCompleted == task.isCompleted
    ensures var back := ReminderToTask(Edited(r, task, now), now);
      back.id == r.calendarItemIdentifier && back.title == task.title &&
      back.notes == task.notes && back.dueDate == task.dueDate && back.isCompleted == task.isCompleted
  {
  }

  /** The store once `updateReminder` on a task from Reminders has returned: the first reminder of the
      calendar with the source's identifier is edited with the task's content; every other reminder
      is as it was. */
  function AfterEdit(rs: seq<Reminder>, calendarId: string, task: Task, now: Date): (s: seq<Reminder>)
    requires task.source.AppleReminders?
    ensures |s| == |rs|
    ensures forall j :: 0 <= j < |rs| && FirstWithId(rs, calendarId, task.source.reminderId) != Some(j) ==>
                          s[j] == rs[j]
    ensures FirstWithId(rs, calendarId, task.source.reminderId).Some? ==>
      var i := FirstWithId(rs, calendarId, task.source.reminderId).value;
      s[i] == Edited(rs[i], task, now)
  {
    match FirstWithId(rs, calendarId, task.source.reminderId)
    case None => rs
    case Some(i) => rs[i := Edited(rs[i], task, now)]
  }

  /** The store once `deleteReminder` on a task from Reminders has returned: the first reminder of the
      calendar with the source's identifier is gone, and the others keep their order. */
  function AfterRemove(rs: seq<Reminder>, calendarId: string, task: Task): (s: seq<Reminder>)
    requires task.source.AppleReminders?
    ensures FirstWithId(rs, calendarId, task.source.reminderId).None? ==> s == rs
    ensures FirstWithId(rs, calendarId, task.source.reminderId).Some? ==>
      var i := FirstWithId(rs, calendarId, task.source.reminderId).value;
      |s| == |rs| - 1 &&
      (forall j :: 0 <= j < i ==> s[j] == rs[j]) &&
      (forall j :: i <= j < |s| ==> s[j] == rs[j + 1])
  {
    match FirstWithId(rs, calendarId, task.source.reminderId)
    case None => rs
    case Some(i) => rs[..i] + rs[i + 1..]
  }

  /** Identifiers handed out by the event store. */
  function ReminderId(n: nat): string {
    "r" + Digits(n)
  }

  class RemindersService {
    /** `reminderList`: nil until `setup` has found or made the list. */
    var reminderList: Option<Calendar>
    var calendars: seq<Calendar>
    var reminders: seq<Reminder>
    /** Whether `fetchReminders(matching:)` hands its callback nil. */
    var fetchDeliversNil: bool
    var nextId: nat
    var calls: nat
    var faults: set<nat>
    /** The clock, read by `Date()` and by the store when it stamps a saved reminder. */
    var now: Date
    /** The reminder calls the service has received, in order, with whether each returned. */
    ghost var log: seq<Call>

    /** The service as `init` leaves it, with no list chosen yet. */
    constructor (calendars: seq<Calendar>, reminders: seq<Reminder>, fetchDeliversNil: bool,
                 faults: set<nat>, now: Date)
      ensures this.reminderList.None? && this.calendars == calendars && this.reminders == reminders
      ensures this.fetchDeliversNil == fetchDeliversNil && this.faults == faults && this.now == now
      ensures this.calls == 0 && this.nextId == 0 && this.log == []
    {
      this.reminderList := None;
      this.calendars := calendars;
      this.reminders := reminders;
      this.fetchDeliversNil := fetchDeliversNil;
      this.faults := faults;
      this.now := now;
      this.calls := 0;
      this.nextId := 0;
      this.log := [];
    }

    /** One throwing store call (`saveCalendar`, `save`, `commit`, `remove`). */
    method Remote() returns (ok: bool)
      modifies this`calls
      ensures calls == old(calls) + 1
      ensures ok <==> old(calls) !in faults
    {
      ok := calls !in faults;
      calls := calls + 1;
    }

    /** Whether `setup` throws: there is no "GTasks" list and saving a new one fails. */
    predicate SetupFails()
      reads this
    {
      FirstCalendarTitled(calendars, ListName).None? && calls in faults
    }

    /** `setup()`: keep the first calendar titled "GTasks", or save a new one and keep it. */
    method Setup() returns (r: Outcome<Error>)
      modifies this`reminderList, this`calendars, this`nextId, this`calls
      ensures reminders == old(reminders)
      ensures r.Fail? <==> old(SetupFails())
      ensures r.Pass? ==> FirstCalendarTitled(calendars, ListName).Some? &&
                          reminderList == Some(calendars[FirstCalendarTitled(calendars, ListName).value])
      ensures FirstCalendarTitled(old(calendars), ListName).Some? ==>
        r == Pass && unchanged(this`calendars, this`nextId, this`calls) &&
        reminderList == Some(calendars[FirstCalendarTitled(calendars, ListName).value])
      ensures FirstCalendarTitled(old(calendars), ListName).None? ==>
        calls == old(calls) + 1 && nextId == old(nextId) + 1
      ensures old(SetupFails()) ==>
        r == Fail(RemoteFailure(old(calls))) && unchanged(this`reminderList, this`calendars)
      ensures FirstCalendarTitled(old(calendars), ListName).None? && !old(SetupFails()) ==>
        reminderList == Some(Calendar(ReminderId(old(nextId)), ListName)) &&
        calendars == old(calendars) + [reminderList.value]
    {
      var existing := FirstCalendarTitled(calendars, ListName);
      if existing.Some? {
        reminderList := Some(calendars[existing.value]);
        return Pass;
      }
      var list := Calendar(ReminderId(nextId), ListName);
      nextId := nextId + 1;
      var ok := Remote();
      if !ok {
        return Fail(RemoteFailure(calls - 1));
      }
      FirstCalendarTitledAppend(calendars, list, ListName);
      calendars := calendars + [list];
      reminderList := Some(list);
      r := Pass;
    }

    /** `fetchReminders()`: "Reminders list not found" before `setup`; otherwise the list's reminders
        as tasks, none when the store hands back nil. */
    function FetchReminders(): (r: Result<seq<Task>, Error>)
      reads this
      ensures reminderList.None? <==> r == Failure(RemindersListNotFound)
      ensures r.Success? && fetchDeliversNil ==> r.value == []
      ensures r.Success? && !fetchDeliversNil ==>
        r.value == RemindersToTasks(InCalendar(reminders, reminderList.value.identifier), now)
    {
      if reminderList.None? then Failure(RemindersListNotFound)
      else if fetchDeliversNil then Success([])
      else Success(RemindersToTasks(InCalendar(reminders, reminderList.value.identifier), now))
    }

    /** `fetchReminder(withId:)`: "Reminders list not found" before `setup`; nil when the store hands
        back nil or the list holds no reminder with that identifier; otherwise the first one. */
    function FetchReminder(id: string): (r: Result<Option<nat>, Error>)
      reads this
      ensures reminderList.None? <==> r == Failure(RemindersListNotFound)
      ensures r.Success? && r.value.Some? ==>
        !fetchDeliversNil && r.value.value < |reminders| &&
        reminders[r.value.value].calendarItemIdentifier == id &&
        reminders[r.value.value].calendarId == reminderList.value.identifier
      ensures r.Success? && r.value.None? ==>
        fetchDeliversNil || forall j :: 0 <= j < |reminders| ==>
          reminders[j].calendarId != reminderList.value.identifier || reminders[j].calendarItemIdentifier != id
    {
      if reminderList.None? then Failure(RemindersListNotFound)
      else if fetchDeliversNil then Success(None)
      else Success(FirstWithId(reminders, reminderList.value.identifier, id))
    }

    /** `createReminder(_:)`: "Reminders list not found" before `setup`; otherwise saves a new reminder
        with the task's content (nothing is stored when the save throws) and then commits (when the
        commit throws the reminder stays stored but the call throws). */
    method CreateReminder(task: Task) returns (r: Result<Task, Error>)
      modifies this`reminders, this`nextId, this`calls, this`log
      ensures log == old(log) + [Call(CreateReminderOp(task), r.Success?)]
      ensures old(reminderList).None? ==>
        r == Failure(RemindersListNotFound) && unchanged(this`reminders, this`nextId, this`calls)
      ensures reminderList.Some? ==> nextId == old(nextId) + 1
      ensures reminderList.Some? && old(calls) in faults ==>
        r == Failure(RemoteFailure(old(calls))) && reminders == old(reminders) && calls == old(calls) + 1
      ensures reminderList.Some? && old(calls) !in faults ==>
        var saved := Drafted(task, ReminderId(old(nextId)), reminderList.value.identifier, now);
        reminders == old(reminders) + [saved] && calls == old(calls) + 2 &&
        (old(calls) + 1 in faults ==> r == Failure(RemoteFailure(old(calls) + 1))) &&
        (old(calls) + 1 !in faults ==> r == Success(ReminderToTask(saved, now)))
    {
      if reminderList.None? {
        r := Failure(RemindersListNotFound);
      } else {
        var saved := Drafted(task, ReminderId(nextId), reminderList.value.identifier, now);
        nextId := nextId + 1;
        var ok := Remote();
        if !ok {
          r := Failure(RemoteFailure(calls - 1));
        } else {
          reminders := reminders + [saved];
          ok := Remote();
          r := if ok then Success(ReminderToTask(saved, now)) else Failure(RemoteFailure(calls - 1));
        }
      }
      log := log + [Call(CreateReminderOp(task), r.Success?)];
    }

    /** `updateReminder(_:)`: "Invalid task source" for a task not from Reminders, the lookup's error,
        "Reminder not found" when the lookup finds nothing; otherwise saves the reminder with the
        task's content. */
    method UpdateReminder(task: Task) returns (r: Result<Task, Error>)
      modifies this`reminders, this`calls, this`log
      ensures log == old(log) + [Call(UpdateReminderOp(task), r.Success?)]
      ensures r.Failure? ==> reminders == old(reminders)
      ensures r.Success? ==> reminderList.Some? && task.source.AppleReminders? &&
                             reminders == AfterEdit(old(reminders), reminderList.value.identifier, task, now)
      ensures !task.source.AppleReminders? ==>
        r == Failure(InvalidTaskSource) && unchanged(this`reminders, this`calls)
      ensures task.source.AppleReminders? && old(FetchReminder(task.source.reminderId)).Failure? ==>
        r == Failure(RemindersListNotFound) && unchanged(this`reminders, this`calls)
      ensures task.source.AppleReminders? && old(FetchReminder(task.source.reminderId)) == Success(None) ==>
        r == Failure(ReminderNotFound) && unchanged(this`reminders, this`calls)
      ensures task.source.AppleReminders? && old(FetchReminder(task.source.reminderId)).Success? &&
              old(FetchReminder(task.source.reminderId)).value.Some? ==>
        var i := old(FetchReminder(task.source.reminderId)).value.value;
        calls == old(calls) + 1 &&
        (old(calls) in faults ==> r == Failure(RemoteFailure(old(calls))) && reminders == old(reminders)) &&
        (old(calls) !in faults ==>
           reminders == old(reminders)[i := Edited(old(reminders)[i], task, now)] &&
           r == Success(ReminderToTask(reminders[i], now)))
    {
      if !task.source.AppleReminders? {
        r := Failure(InvalidTaskSource);
      } else {
        var found := FetchReminder(task.source.reminderId);
        if found.Failure? {
          r := Failure(found.error);
        } else if found.value.None? {
          r := Failure(ReminderNotFound);
        } else {
          var i := found.value.value;
          var edited := Edited(reminders[i], task, now);
          var ok := Remote();
          if !ok {
            r := Failure(RemoteFailure(calls - 1));
          } else {
            reminders := reminders[i := edited];
            r := Success(ReminderToTask(edited, now));
          }
        }
      }
      log := log + [Call(UpdateReminderOp(task), r.Success?)];
    }

    /** `deleteReminder(_:)`: the same guards as `updateReminder`, then removes the reminder. */
    method DeleteReminder(task: Task) returns (r: Outcome<Error>)
      modifies this`reminders, this`calls, this`log
      ensures log == old(log) + [Call(DeleteReminderOp(task), r.Pass?)]
      ensures r.Fail? ==> reminders == old(reminders)
      ensures r.Pass? ==> reminderList.Some? && task.source.AppleReminders? &&
                          reminders == AfterRemove(old(reminders), reminderList.value.identifier, task)
      ensures !task.source.AppleReminders? ==>
        r == Fail(InvalidTaskSource) && unchanged(this`reminders, this`calls)
      ensures task.source.AppleReminders? && old(FetchReminder(task.source.reminderId)).Failure? ==>
        r == Fail(RemindersListNotFound) && unchanged(this`reminders, this`calls)
      ensures task.source.AppleReminders? && old(FetchReminder(task.source.reminderId)) == Success(None) ==>
        r == Fail(ReminderNotFound) && unchanged(this`reminders, this`calls)
      ensures task.source.AppleReminders? && old(FetchReminder(task.source.reminderId)).Success? &&
              old(FetchReminder(task.source.reminderId)).value.Some? ==>
        var i := old(FetchReminder(task.source.reminderId)).value.value;
        calls == old(calls) + 1 &&
        (old(calls) in faults ==> r == Fail(RemoteFailure(old(calls))) && reminders == old(reminders)) &&
        (old(calls) !in faults ==> r == Pass && reminders == old(reminders)[..i] + old(reminders)[i + 1..])
    {
      if !task.source.AppleReminders? {
        r := Fail(InvalidTaskSource);
      } else {
        var found := FetchReminder(task.source.reminderId);
        if found.Failure? {
          r := Fail(found.error);
        } else if found.value.None? {
          r := Fail(ReminderNotFound);
        } else {
          var i := found.value.value;
          var ok := Remote();
          if !ok {
            r := Fail(RemoteFailure(calls - 1));
          } else {
            reminders := reminders[..i] + reminders[i + 1..];
            r := Pass;
          }
        }
      }
      log := log + [Call(DeleteReminderOp(task), r.Pass?)];
    }
  }
}
