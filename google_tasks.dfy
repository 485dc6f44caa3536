/** Services/GoogleTasksService.swift without its OAuth set-up: the task-list bootstrap, the mapping
    between API items and `Task`s, and the guards of the four task calls. The Tasks API is an
    in-memory account (its task lists and the tasks in them); remote call number n fails iff n is in
    `faults`, and identifiers the server assigns are drawn from a counter. */
module GoogleTasks {
  import opened Wrappers
  import opened TaskModel
  import opened ServiceCalls

  /** A date string of the API with what the ISO 8601 formatter makes of it. */
  datatype Stamp = Parsed(date: Date) | Unparseable(text: string)

  /** `string.flatMap { formatter.date(from: $0) }`: a missing or unparseable string gives nil. */
  function ParseStamp(s: Option<Stamp>): (r: Option<Date>)
    ensures r.Some? <==> s.Some? && s.value.Parsed?
    ensures r.Some? ==> r.value == s.value.date
  {
    if s.Some? && s.value.Parsed? then Some(s.value.date) else None
  }

  /** `GTLRTasks_TaskList`: every property may be absent. */
  datatype TaskListItem = TaskListItem(identifier: Option<string>, title: Option<string>)

  /** `GTLRTasks_Task`: every property may be absent. */
  datatype TaskItem = TaskItem(
    identifier: Option<string>,
    title: Option<string>,
    notes: Option<string>,
    due: Option<Stamp>,
    status: Option<string>,
    updated: Option<Stamp>)

  /** A task held by the account, with the list it belongs to. */
  datatype Stored = Stored(listId: string, item: TaskItem)

  /** `listName` */
  const ListName := "\U{1F5D3}\U{FE0F} Reclaim"
  const CompletedStatus := "completed"
  const NeedsActionStatus := "needsAction"

  /** `task.isCompleted ? "completed" : "needsAction"` */
  function StatusFor(isCompleted: bool): (s: string)
    ensures s == CompletedStatus <==> isCompleted
    ensures s == NeedsActionStatus <==> !isCompleted
  {
    if isCompleted then CompletedStatus else NeedsActionStatus
  }

  /** `googleTask.status == "completed"` */
  function IsCompletedStatus(status: Option<string>): (b: bool)
    ensures b <==> status == Some(CompletedStatus)
  {
    status == Some(CompletedStatus)
  }

  /** Completion survives the trip out and back: the status sent for a flag reads back as that flag. */
  lemma StatusRoundTrip(isCompleted: bool)
    ensures IsCompletedStatus(Some(StatusFor(isCompleted))) == isCompleted
  {
  }

  /** The `compactMap` closure of `fetchTasks` (and the result mapping of `createTask`/`updateTask`):
      nil without an identifier or a title, otherwise a `Task` whose source names the same identifier. */
  function ItemToTask(item: TaskItem, now: Date): (r: Option<Task>)
    ensures r.Some? <==> item.identifier.Some? && item.title.Some?
    ensures r.Some? ==> r.value.id == item.identifier.value && r.value.source == GoogleTasks(r.value.id)
    ensures r.Some? ==> r.value.title == item.title.value && r.value.notes == item.notes
    ensures r.Some? ==> r.value.dueDate == ParseStamp(item.due)
    ensures r.Some? ==> (r.value.isCompleted <==> item.status == Some(CompletedStatus))
    ensures r.Some? ==> r.value.lastModified == ParseStamp(item.updated).GetOr(now) && !r.value.needsSync
  {
    match (item.identifier, item.title)
    case (Some(id), Some(title)) =>
      Some(NewTask(id, title, item.notes, ParseStamp(item.due), IsCompletedStatus(item.status),
                   ParseStamp(item.updated).GetOr(now), GoogleTasks(id)))
    case _ => None
  }

  /** `items.compactMap(ItemToTask)` */
  function ItemsToTasks(items: seq<TaskItem>, now: Date): (r: seq<Task>)
    ensures |r| <= |items|
    ensures forall i :: 0 <= i < |r| ==> r[i].source == GoogleTasks(r[i].id) && !r[i].needsSync
    decreases |items|
  {
    if items == [] then []
    else
      var last := ItemToTask(items[|items| - 1], now);
      ItemsToTasks(items[..|items| - 1], now) + (if last.Some? then [last.value] else [])
  }

  /** Converting two runs of items is converting each: every item gives its own task or nothing, in
      response order. */
  lemma {:induction false} ItemsToTasksConcat(a: seq<TaskItem>, b: seq<TaskItem>, now: Date)
    ensures ItemsToTasks(a + b, now) == ItemsToTasks(a, now) + ItemsToTasks(b, now)
    decreases |b|
  {
    if b == [] {
      assert a + b == a;
    } else {
      assert (a + b)[..|a + b| - 1] == a + b[..|b| - 1];
      ItemsToTasksConcat(a, b[..|b| - 1], now);
    }
  }

  /** Items without an identifier or a title are dropped; every other item becomes one task. */
  lemma {:induction false} ItemsToTasksCount(items: seq<TaskItem>, now: Date)
    ensures |ItemsToTasks(items, now)| == |items| <==>
      forall i :: 0 <= i < |items| ==> items[i].identifier.Some? && items[i].title.Some?
    ensures (forall i :: 0 <= i < |items| ==> items[i].identifier.None? || items[i].title.None?) ==>
      ItemsToTasks(items, now) == []
    decreases |items|
  {
    if items != [] {
      var init := items[..|items| - 1];
      ItemsToTasksCount(init, now);
      assert forall i :: 0 <= i < |init| ==> init[i] == items[i];
    }
  }

  /** The tasks `fetchTasks` returns for a list response: none when it has no `items` array. */
  function TasksFromResponse(items: Option<seq<TaskItem>>, now: Date): (r: seq<Task>)
    ensures items.None? ==> r == []
    ensures items.Some? ==> r == ItemsToTasks(items.value, now)
  {
    match items
    case None => []
    case Some(its) => ItemsToTasks(its, now)
  }

  /** The items of one list, in order; the API leaves `items` out when there are none. */
  function ListResponse(store: seq<Stored>, listId: string): (r: Option<seq<TaskItem>>)
    ensures r.Some? ==> r.value != [] && |r.value| <= |store|
    decreases |store|
  {
    if store == [] then None
    else
      var init := ListResponse(store[..|store| - 1], listId);
      var last := store[|store| - 1];
      var items := (if init.Some? then init.value else []) + (if last.listId == listId then [last.item] else []);
      if items == [] then None else Some(items)
  }

  /** The object `createTask`/`updateTask` fill in: title, notes, due only when there is a due date,
      and the status string for the completion flag. */
  function Outgoing(task: Task): (o: TaskItem)
    ensures o.identifier.None? && o.updated.None?
    ensures o.title == Some(task.title) && o.notes == task.notes
    ensures o.due.Some? <==> task.dueDate.Some?
    ensures task.dueDate.Some? ==> o.due == Some(Parsed(task.dueDate.value))
    ensures o.status == Some(CompletedStatus) <==> task.isCompleted
    ensures o.status == Some(NeedsActionStatus) <==> !task.isCompleted
  {
    TaskItem(None, Some(task.title), task.notes,
             if task.dueDate.Some? then Some(Parsed(task.dueDate.value)) else None,
             Some(StatusFor(task.isCompleted)), None)
  }

  /** What the server keeps of a task sent to it, once it has given it an identifier and a time. */
  function Received(task: Task, id: string, now: Date): TaskItem {
    Outgoing(task).(identifier := Some(id), updated := Some(Parsed(now)))
  }

  /** A task sent out and read back has the content it was sent with, the identifier the server gave
      it in both `id` and `source`, and the server's time as `lastModified`. */
  lemma OutgoingRoundTrip(task: Task, id: string, now: Date)
    ensures ItemToTask(Received(task, id, now), now).Some?
    ensures var back := ItemToTask(Received(task, id, now), now).value;
      back.id == id && back.source == GoogleTasks(id) &&
      back.title == task.title && back.notes == task.notes && back.dueDate == task.dueDate &&
      back.isCompleted == task.isCompleted && back.lastModified == now
  {
  }

  /** `items.first(where: { $0.title == name })`, as a position. */
  function FirstTitled(lists: seq<TaskListItem>, name: string): (r: Option<nat>)
    ensures r.Some? ==> r.value < |lists| && lists[r.value].title == Some(name)
    ensures r.Some? ==> forall j :: 0 <= j < r.value ==> lists[j].title != Some(name)
    ensures r.None? ==> forall j :: 0 <= j < |lists| ==> lists[j].title != Some(name)
    decreases |lists|
  {
    if lists == [] then None
    else if lists[0].title == Some(name) then Some(0)
    else
      var r := FirstTitled(lists[1..], name);
      if r.None? then None else Some(r.value + 1)
  }

  /** A list appended after lists none of which has the name is the first with it. */
  lemma {:induction false} FirstTitledAppend(lists: seq<TaskListItem>, x: TaskListItem, name: string)
    requires FirstTitled(lists, name).None? && x.title == Some(name)
    ensures FirstTitled(lists + [x], name) == Some(|lists|)
    decreases |lists|
  {
    if lists != [] {
      assert (lists + [x])[1..] == lists[1..] + [x];
      FirstTitledAppend(lists[1..], x, name);
    }
  }

  /** The position of the first task of the list with the given identifier. */
  function FindItem(store: seq<Stored>, listId: string, taskId: string): (r: Option<nat>)
    ensures r.Some? ==> r.value < |store| && store[r.value].listId == listId
                        && store[r.value].item.identifier == Some(taskId)
    ensures r.Some? ==> forall j :: 0 <= j < r.value ==>
                          store[j].listId != listId || store[j].item.identifier != Some(taskId)
    ensures r.None? ==> forall j :: 0 <= j < |store| ==>
                          store[j].listId != listId || store[j].item.identifier != Some(taskId)
    decreases |store|
  {
    if store == [] then None
    else if store[0].listId == listId && store[0].item.identifier == Some(taskId) then Some(0)
    else
      var r := FindItem(store[1..], listId, taskId);
      if r.None? then None else Some(r.value + 1)
  }

  /** The account once `updateTask` on a task from Google has returned: the first task of the list
      with the source's identifier holds what the server keeps of the task; every other entry is as
      it was. */
  function AfterUpdate(store: seq<Stored>, listId: string, task: Task, now: Date): (s: seq<Stored>)
    requires task.source.GoogleTasks?
    ensures |s| == |store|
    ensures forall j :: 0 <= j < |store| && FindItem(store, listId, task.source.taskId) != Some(j) ==>
                          s[j] == store[j]
    ensures FindItem(store, listId, task.source.taskId).Some? ==>
      s[FindItem(store, listId, task.source.taskId).value] == Stored(listId, Received(task, task.source.taskId, now))
  {
    match FindItem(store, listId, task.source.taskId)
    case None => store
    case Some(i) => store[i := Stored(listId, Received(task, task.source.taskId, now))]
  }

  /** The account once `deleteTask` on a task from Google has returned: the first task of the list
      with the source's identifier is gone, and the others keep their order. */
  function AfterDelete(store: seq<Stored>, listId: string, task: Task): (s: seq<Stored>)
    requires task.source.GoogleTasks?
    ensures FindItem(store, listId, task.source.taskId).None? ==> s == store
    ensures FindItem(store, listId, task.source.taskId).Some? ==>
      var i := FindItem(store, listId, task.source.taskId).value;
      |s| == |store| - 1 &&
      (forall j :: 0 <= j < i ==> s[j] == store[j]) &&
      (forall j :: i <= j < |s| ==> s[j] == store[j + 1])
  {
    match FindItem(store, listId, task.source.taskId)
    case None => store
    case Some(i) => store[..i] + store[i + 1..]
  }

  /** Identifiers handed out by the server. */
  function GoogleId(n: nat): string {
    "g" + Digits(n)
  }

  class GoogleTasksService {
    /** `taskListId`: nil until `setup` has found or made the list. */
    var taskListId: Option<string>
    /** The account's task lists. */
    var lists: seq<TaskListItem>
    /** The account's tasks. */
    var store: seq<Stored>
    var nextId: nat
    var calls: nat
    var faults: set<nat>
    /** The clock, read by `Date()` and by the server when it stamps a change. */
    var now: Date
    /** The task calls the service has received, in order, with whether each returned. */
    ghost var log: seq<Call>

    /** The service as `init` leaves it: authorised, with no list chosen yet. */
    constructor (lists: seq<TaskListItem>, store: seq<Stored>, faults: set<nat>, now: Date)
      ensures this.taskListId.None? && this.lists == lists && this.store == store
      ensures this.faults == faults && this.now == now && this.calls == 0 && this.nextId == 0
      ensures this.log == []
    {
      this.taskListId := None;
      this.lists := lists;
      this.store := store;
      this.faults := faults;
      this.now := now;
      this.calls := 0;
      this.nextId := 0;
      this.log := [];
    }

    /** What `fetchTasks` returns once a list is chosen and the query succeeds. */
    function Listed(): seq<Task>
      reads this
      requires taskListId.Some?
    {
      TasksFromResponse(ListResponse(store, taskListId.value), now)
    }

    /** One `executeQuery`: it passes back an error iff its number is in `faults`. */
    method Remote() returns (ok: bool)
      modifies this`calls
      ensures calls == old(calls) + 1
      ensures ok <==> old(calls) !in faults
    {
      ok := calls !in faults;
      calls := calls + 1;
    }

    /** `setup()`: list the account's task lists; keep the first titled `listName`, or create one when
        none is. A response without lists throws "No task lists found". */
    method Setup() returns (r: Outcome<Error>)
      modifies this`taskListId, this`lists, this`nextId, this`calls
      ensures store == old(store)
      ensures r.Pass? ==> FirstTitled(lists, ListName).Some? &&
                          taskListId == lists[FirstTitled(lists, ListName).value].identifier
      ensures old(calls) in faults ==>
        r == Fail(RemoteFailure(old(calls))) && calls == old(calls) + 1 && unchanged(this`taskListId, this`lists, this`nextId)
      ensures old(calls) !in faults && old(lists) == [] ==>
        r == Fail(NoTaskLists) && calls == old(calls) + 1 && unchanged(this`taskListId, this`lists, this`nextId)
      ensures old(calls) !in faults && old(lists) != [] && FirstTitled(old(lists), ListName).Some? ==>
        r == Pass && calls == old(calls) + 1 && unchanged(this`lists, this`nextId) &&
        taskListId == lists[FirstTitled(lists, ListName).value].identifier
      ensures old(calls) !in faults && old(lists) != [] && FirstTitled(old(lists), ListName).None? ==>
        calls == old(calls) + 2 && nextId == old(nextId) + 1 &&
        (old(calls) + 1 in faults ==> r == Fail(RemoteFailure(old(calls) + 1)) && unchanged(this`taskListId, this`lists)) &&
        (old(calls) + 1 !in faults ==>
           r == Pass && taskListId == Some(GoogleId(old(nextId))) &&
           lists == old(lists) + [TaskListItem(Some(GoogleId(old(nextId))), Some(ListName))])
    {
      var ok := Remote();
      if !ok {
        return Fail(RemoteFailure(calls - 1));
      }
      if lists == [] {
        return Fail(NoTaskLists);
      }
      var existing := FirstTitled(lists, ListName);
      if existing.Some? {
        taskListId := lists[existing.value].identifier;
        return Pass;
      }
      var id := GoogleId(nextId);
      nextId := nextId + 1;
      ok := Remote();
      if !ok {
        return Fail(RemoteFailure(calls - 1));
      }
      FirstTitledAppend(lists, TaskListItem(Some(id), Some(ListName)), ListName);
      lists := lists + [TaskListItem(Some(id), Some(ListName))];
      taskListId := Some(id);
      r := Pass;
    }

    /** `fetchTasks()`: throws "Task list not initialized" before `setup`; otherwise the list's tasks,
        none if the response has no `items`. */
    method FetchTasks() returns (r: Result<seq<Task>, Error>)
      modifies this`calls
      ensures taskListId.None? ==> r == Failure(TaskListNotInitialized) && calls == old(calls)
      ensures taskListId.Some? ==> calls == old(calls) + 1
      ensures taskListId.Some? && old(calls) in faults ==> r == Failure(RemoteFailure(old(calls)))
      ensures taskListId.Some? && old(calls) !in faults ==> r == Success(Listed())
    {
      if taskListId.None? {
        return Failure(TaskListNotInitialized);
      }
      var ok := Remote();
      if !ok {
        return Failure(RemoteFailure(calls - 1));
      }
      r := Success(TasksFromResponse(ListResponse(store, taskListId.value), now));
    }

    /** `createTask(_:)`: throws "Task list not initialized" before `setup`; otherwise inserts the
        task's content in the list and returns what the server made of it. */
    method CreateTask(task: Task) returns (r: Result<Task, Error>)
      modifies this`store, this`nextId, this`calls
      ensures old(taskListId).None? ==> r == Failure(TaskListNotInitialized) && unchanged(this`store, this`nextId, this`calls)
      ensures taskListId.Some? ==> calls == old(calls) + 1
      ensures taskListId.Some? && old(calls) in faults ==>
        r == Failure(RemoteFailure(old(calls))) && unchanged(this`store, this`nextId)
      ensures taskListId.Some? && old(calls) !in faults ==>
        var created := Received(task, GoogleId(old(nextId)), now);
        store == old(store) + [Stored(taskListId.value, created)] && nextId == old(nextId) + 1 &&
        r == Success(ItemToTask(created, now).value)
    {
      if taskListId.None? {
        return Failure(TaskListNotInitialized);
      }
      var ok := Remote();
      if !ok {
        return Failure(RemoteFailure(calls - 1));
      }
      var created := Received(task, GoogleId(nextId), now);
      nextId := nextId + 1;
      store := store + [Stored(taskListId.value, created)];
      OutgoingRoundTrip(task, created.identifier.value, now);
      r := Success(ItemToTask(created, now).value);
    }

    /** `updateTask(_:)`: throws "Task list not initialized" before `setup` and "Invalid task source"
        for a task that is not from Google; otherwise replaces the task named by the source's
        `taskId` with the task's content (an error when the list has no such task). */
    method UpdateTask(task: Task) returns (r: Result<Task, Error>)
      modifies this`store, this`calls, this`log
      ensures log == old(log) + [Call(UpdateTaskOp(task), r.Success?)]
      ensures r.Failure? ==> store == old(store)
      ensures r.Success? ==> taskListId.Some? && task.source.GoogleTasks? &&
                             store == AfterUpdate(old(store), taskListId.value, task, now)
      ensures old(taskListId).None? ==> r == Failure(TaskListNotInitialized) && unchanged(this`store, this`calls)
      ensures taskListId.Some? && !task.source.GoogleTasks? ==>
        r == Failure(InvalidTaskSource) && unchanged(this`store, this`calls)
      ensures taskListId.Some? && task.source.GoogleTasks? ==> calls == old(calls) + 1
      ensures taskListId.Some? && task.source.GoogleTasks? &&
              (old(calls) in faults || FindItem(old(store), taskListId.value, task.source.taskId).None?) ==>
        r == Failure(RemoteFailure(old(calls))) && store == old(store)
      ensures taskListId.Some? && task.source.GoogleTasks? && old(calls) !in faults &&
              FindItem(old(store), taskListId.value, task.source.taskId).Some? ==>
        var i := FindItem(old(store), taskListId.value, task.source.taskId).value;
        var replaced := Received(task, task.source.taskId, now);
        store == old(store)[i := Stored(taskListId.value, replaced)] &&
        r == Success(ItemToTask(replaced, now).value)
    {
      if taskListId.None? {
        r := Failure(TaskListNotInitialized);
      } else if !task.source.GoogleTasks? {
        r := Failure(InvalidTaskSource);
      } else {
        var taskId := task.source.taskId;
        var ok := Remote();
        var found := FindItem(store, taskListId.value, taskId);
        if !ok || found.None? {
          r := Failure(RemoteFailure(calls - 1));
        } else {
          var replaced := Received(task, taskId, now);
          store := store[found.value := Stored(taskListId.value, replaced)];
          OutgoingRoundTrip(task, taskId, now);
          r := Success(ItemToTask(replaced, now).value);
        }
      }
      log := log + [Call(UpdateTaskOp(task), r.Success?)];
    }

    /** `deleteTask(_:)`: the same guards as `updateTask`, then removes the task named by the source. */
    method DeleteTask(task: Task) returns (r: Outcome<Error>)
      modifies this`store, this`calls, this`log
      ensures log == old(log) + [Call(DeleteTaskOp(task), r.Pass?)]
      ensures r.Fail? ==> store == old(store)
      ensures r.Pass? ==> taskListId.Some? && task.source.GoogleTasks? &&
                          store == AfterDelete(old(store), taskListId.value, task)
      ensures old(taskListId).None? ==> r == Fail(TaskListNotInitialized) && unchanged(this`store, this`calls)
      ensures taskListId.Some? && !task.source.GoogleTasks? ==>
        r == Fail(InvalidTaskSource) && unchanged(this`store, this`calls)
      ensures taskListId.Some? && task.source.GoogleTasks? ==> calls == old(calls) + 1
      ensures taskListId.Some? && task.source.GoogleTasks? &&
              (old(calls) in faults || FindItem(old(store), taskListId.value, task.source.taskId).None?) ==>
        r == Fail(RemoteFailure(old(calls))) && store == old(store)
      ensures taskListId.Some? && task.source.GoogleTasks? && old(calls) !in faults &&
              FindItem(old(store), taskListId.value, task.source.taskId).Some? ==>
        var i := FindItem(old(store), taskListId.value, task.source.taskId).value;
        r == Pass && store == old(store)[..i] + old(store)[i + 1..]
    {
      if taskListId.None? {
        r := Fail(TaskListNotInitialized);
      } else if !task.source.GoogleTasks? {
        r := Fail(InvalidTaskSource);
      } else {
        var ok := Remote();
        var found := FindItem(store, taskListId.value, task.source.taskId);
        if !ok || found.None? {
          r := Fail(RemoteFailure(calls - 1));
        } else {
          store := store[..found.value] + store[found.value + 1..];
          r := Pass;
        }
      }
      log := log + [Call(DeleteTaskOp(task), r.Pass?)];
    }
  }
}
