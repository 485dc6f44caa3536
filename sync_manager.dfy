/** Services/SyncManager.swift: the loops of `sync()` over the two snapshots, proved against the
    functions of module SyncPlan, and the two entry points, which drive the two services in order. */
module SyncManager {
  import opened Wrappers
  import opened TaskModel
  import opened SyncPlan
  import opened ServiceCalls
  import GoogleTasks
  import Reminders

  /** `reduce(into: [String: Task]())` keyed by `"\(title)_\(id)"`. */
  method BuildIndex(ts: seq<Task>) returns (d: map<string, Task>)
    ensures d == Index(ts)
  {
    d := map[];
    for i := 0 to |ts|
      invariant d == Index(ts[..i])
    {
      assert ts[..i + 1][..i] == ts[..i];
      d := d[Key(ts[i]) := ts[i]];
    }
    assert ts[..|ts|] == ts;
  }

  /** `googleTasksByTitle`: `dict[task.title, default: []].append(task)` for each task. */
  method GroupTasksByTitle(ts: seq<Task>) returns (g: map<string, seq<Task>>)
    ensures g == GroupByTitle(ts)
  {
    g := map[];
    for i := 0 to |ts|
      invariant g == GroupByTitle(ts[..i])
    {
      assert ts[..i + 1][..i] == ts[..i];
      var group := if ts[i].title in g then g[ts[i].title] else [];
      g := g[ts[i].title := group + [ts[i]]];
    }
    assert ts[..|ts|] == ts;
  }

  /** The analysis loop over the Google tasks: a task no reminder matches is queued for creation; a
      matched reminder is queued for update with Google's content when Google's copy is newer. */
  method PlanGoogleSide(tasks: seq<Task>, remindersDict: map<string, Task>)
    returns (tasksToCreate: seq<Task>, tasksToUpdate: seq<Task>)
    ensures tasksToCreate == ToCreate(tasks, remindersDict)
    ensures tasksToUpdate == GoogleSideUpdates(tasks, remindersDict)
  {
    tasksToCreate, tasksToUpdate := [], [];
    for i := 0 to |tasks|
      invariant tasksToCreate == ToCreate(tasks[..i], remindersDict)
      invariant tasksToUpdate == GoogleSideUpdates(tasks[..i], remindersDict)
    {
      assert tasks[..i + 1][..i] == tasks[..i];
      var googleTask := tasks[i];
      assert ToCreate(tasks[..i + 1], remindersDict) == tasksToCreate + CreateStep(googleTask, remindersDict);
      assert GoogleSideUpdates(tasks[..i + 1], remindersDict) == tasksToUpdate + GoogleSideStep(googleTask, remindersDict);
      var key := Key(googleTask);
      if key in remindersDict {
        var reminder := remindersDict[key];
        if googleTask.lastModified > reminder.lastModified {
          tasksToUpdate := tasksToUpdate + [CopyContent(reminder, googleTask)];
        }
      } else {
        tasksToCreate := tasksToCreate + [WithSource(googleTask, AppleReminders(""))];
      }
    }
    assert tasks[..|tasks|] == tasks;
  }

  /** The analysis loop over the reminders: a matched Google task is queued for update with the
      reminder's content when the reminder is newer; an unmatched reminder is skipped. */
  method PlanReminderSide(localReminders: seq<Task>, googleTasksDict: map<string, Task>)
    returns (tasksToUpdate: seq<Task>)
    ensures tasksToUpdate == ReminderSideUpdates(localReminders, googleTasksDict)
  {
    tasksToUpdate := [];
    for i := 0 to |localReminders|
      invariant tasksToUpdate == ReminderSideUpdates(localReminders[..i], googleTasksDict)
    {
      assert localReminders[..i + 1][..i] == localReminders[..i];
      var reminder := localReminders[i];
      assert ReminderSideUpdates(localReminders[..i + 1], googleTasksDict)
        == tasksToUpdate + ReminderSideStep(reminder, googleTasksDict);
      var key := Key(reminder);
      if key in googleTasksDict {
        var googleTask := googleTasksDict[key];
        if reminder.lastModified > googleTask.lastModified {
          tasksToUpdate := tasksToUpdate + [CopyContent(googleTask, reminder)];
        }
      }
    }
    assert localReminders[..|localReminders|] == localReminders;
  }

  /** The analysis phase of `sync()`: the two loops, one after the other; `tasksToDelete` stays empty. */
  method PlanChanges(tasks: seq<Task>, localReminders: seq<Task>,
                     googleTasksDict: map<string, Task>, remindersDict: map<string, Task>)
    returns (plan: Plan)
    ensures plan.toCreate == ToCreate(tasks, remindersDict)
    ensures plan.toUpdate == GoogleSideUpdates(tasks, remindersDict)
                             + ReminderSideUpdates(localReminders, googleTasksDict)
    ensures plan.toDelete == []
  {
    var tasksToCreate, googleSide := PlanGoogleSide(tasks, remindersDict);
    var reminderSide := PlanReminderSide(localReminders, googleTasksDict);
    plan := Plan(tasksToCreate, googleSide + reminderSide, []);
  }

  /** The analysis phase of `sync()` on the two snapshots: the two dictionaries, the (unused) grouping
      by title, and the two loops. */
  method Analyse(googleTasks: seq<Task>, snapshot: seq<Task>) returns (plan: Plan)
    ensures plan == Planned(googleTasks, snapshot)
  {
    var googleTasksDict := BuildIndex(googleTasks);
    var remindersDict := BuildIndex(snapshot);
    var googleTasksByTitle := GroupTasksByTitle(googleTasks);
    plan := PlanChanges(googleTasks, snapshot, googleTasksDict, remindersDict);
  }

  /** The reminders the creation loop saves when every call returns: one per Google task, in order,
      with consecutive identifiers. */
  function Created(tasks: seq<Task>, firstId: nat, calendarId: string, now: Date): (rs: seq<Reminders.Reminder>)
    ensures |rs| == |tasks|
    ensures forall i :: 0 <= i < |tasks| ==>
      rs[i].title == Some(tasks[i].title) && rs[i].notes == tasks[i].notes &&
      rs[i].dueDate == tasks[i].dueDate && rs[i].isCompleted == tasks[i].isCompleted &&
      rs[i].calendarId == calendarId && rs[i].calendarItemIdentifier == Reminders.ReminderId(firstId + i)
  {
    seq(|tasks|, i requires 0 <= i < |tasks| =>
      Reminders.Drafted(Draft(tasks[i]), Reminders.ReminderId(firstId + i), calendarId, now))
  }

  /** One more created reminder at the end. */
  lemma CreatedStep(tasks: seq<Task>, i: nat, firstId: nat, calendarId: string, now: Date)
    requires i < |tasks|
    ensures Created(tasks[..i + 1], firstId, calendarId, now)
      == Created(tasks[..i], firstId, calendarId, now)
         + [Reminders.Drafted(Draft(tasks[i]), Reminders.ReminderId(firstId + i), calendarId, now)]
  {
  }

  /** What the two services hold: the Google account's tasks and the event store's reminders. */
  datatype Stores = Stores(tasks: seq<GoogleTasks.Stored>, reminders: seq<Reminders.Reminder>)

  /** What the apply phase reads from the services and never changes: the chosen lists and the clocks. */
  datatype Context = Context(listId: Option<string>, calendarId: Option<string>, googleNow: Date, remindersNow: Date)

  /** The stores once an update has returned: `updateTask` changes the Google account only and
      `updateReminder` the event store only, as the update loop's switch sends it. */
  function UpdateEffect(s: Stores, t: Task, c: Context): (r: Stores)
    ensures |r.tasks| == |s.tasks| && |r.reminders| == |s.reminders|
    ensures t.source.GoogleTasks? ==> r.reminders == s.reminders
    ensures t.source.AppleReminders? ==> r.tasks == s.tasks
  {
    match t.source
    case GoogleTasks(_) =>
      if c.listId.Some? then s.(tasks := GoogleTasks.AfterUpdate(s.tasks, c.listId.value, t, c.googleNow)) else s
    case AppleReminders(_) =>
      if c.calendarId.Some? then s.(reminders := Reminders.AfterEdit(s.reminders, c.calendarId.value, t, c.remindersNow)) else s
  }

  /** The stores once every update of a run has returned, applied in order. */
  function Updated(s: Stores, updates: seq<Task>, c: Context): (r: Stores)
    ensures |r.tasks| == |s.tasks| && |r.reminders| == |s.reminders|
    decreases |updates|
  {
    if updates == [] then s
    else UpdateEffect(Updated(s, updates[..|updates| - 1], c), updates[|updates| - 1], c)
  }

  /** The stores once a delete has returned: `deleteTask` changes the Google account only and
      `deleteReminder` the event store only, and each removes at most one entry. */
  function DeleteEffect(s: Stores, t: Task, c: Context): (r: Stores)
    ensures |r.tasks| + |r.reminders| + 1 >= |s.tasks| + |s.reminders|
    ensures t.source.GoogleTasks? ==> r.reminders == s.reminders
    ensures t.source.AppleReminders? ==> r.tasks == s.tasks
  {
    match t.source
    case GoogleTasks(_) =>
      if c.listId.Some? then s.(tasks := GoogleTasks.AfterDelete(s.tasks, c.listId.value, t)) else s
    case AppleReminders(_) =>
      if c.calendarId.Some? then s.(reminders := Reminders.AfterRemove(s.reminders, c.calendarId.value, t)) else s
  }

  /** The stores once every delete of a run has returned, applied in order. */
  function Deleted(s: Stores, deletions: seq<Task>, c: Context): (r: Stores)
    ensures |r.tasks| + |r.reminders| + |deletions| >= |s.tasks| + |s.reminders|
    decreases |deletions|
  {
    if deletions == [] then s
    else DeleteEffect(Deleted(s, deletions[..|deletions| - 1], c), deletions[|deletions| - 1], c)
  }

  /** The stores once the whole apply phase has succeeded: a new reminder for every fetched Google
      task, then the updates, then the deletes. */
  function Applied(s: Stores, tasks: seq<Task>, plan: Plan, firstId: nat, c: Context): (r: Stores)
    ensures plan.toDelete == [] ==> |r.reminders| == |s.reminders| + |tasks| && |r.tasks| == |s.tasks|
  {
    var created := s.(reminders := s.reminders + Created(tasks, firstId, c.calendarId.GetOr(""), c.remindersNow));
    Deleted(Updated(created, plan.toUpdate, c), plan.toDelete, c)
  }

  /** Updates that all come from one service leave the other service's store as it was. */
  lemma {:induction false} UpdatedKeepsOtherSide(s: Stores, updates: seq<Task>, c: Context)
    ensures (forall k :: 0 <= k < |updates| ==> updates[k].source.AppleReminders?) ==>
      Updated(s, updates, c).tasks == s.tasks
    ensures (forall k :: 0 <= k < |updates| ==> updates[k].source.GoogleTasks?) ==>
      Updated(s, updates, c).reminders == s.reminders
    decreases |updates|
  {
    if updates != [] {
      UpdatedKeepsOtherSide(s, updates[..|updates| - 1], c);
    }
  }

  /** With snapshots as the two services return them, a sync that plans no Reminders-side update
      leaves the Google account's tasks as they were: every update goes to `updateReminder`, and
      nothing is deleted. */
  lemma GoogleUntouchedWithoutReminderUpdates(s: Stores, tasks: seq<Task>, reminders: seq<Task>,
                                              firstId: nat, c: Context)
    requires forall i :: 0 <= i < |tasks| ==> tasks[i].source.GoogleTasks?
    requires forall i :: 0 <= i < |reminders| ==> reminders[i].source.AppleReminders?
    requires ReminderSideUpdates(reminders, Index(tasks)) == []
    ensures Applied(s, tasks, Planned(tasks, reminders), firstId, c).tasks == s.tasks
  {
    var plan := Planned(tasks, reminders);
    UpdatesRouted(tasks, reminders);
    assert plan.toUpdate == GoogleSideUpdates(tasks, Index(reminders));
    assert forall k :: 0 <= k < |plan.toUpdate| ==> plan.toUpdate[k] in GoogleSideUpdates(tasks, Index(reminders));
    var created := s.(reminders := s.reminders + Created(tasks, firstId, c.calendarId.GetOr(""), c.remindersNow));
    UpdatedKeepsOtherSide(created, plan.toUpdate, c);
  }

  /** A sync in which no reminder is strictly newer than the Google task its key matches leaves the
      Google account's tasks as they were. */
  lemma GoogleUntouchedUnlessReminderNewer(s: Stores, tasks: seq<Task>, reminders: seq<Task>,
                                           firstId: nat, c: Context)
    requires forall i :: 0 <= i < |tasks| ==> tasks[i].source.GoogleTasks?
    requires forall i :: 0 <= i < |reminders| ==> reminders[i].source.AppleReminders?
    requires forall r :: r in reminders && Key(r) in Index(tasks) ==>
      r.lastModified <= Index(tasks)[Key(r)].lastModified
    ensures Applied(s, tasks, Planned(tasks, reminders), firstId, c).tasks == s.tasks
  {
    NoNewerReminderNoUpdates(reminders, Index(tasks));
    GoogleUntouchedWithoutReminderUpdates(s, tasks, reminders, firstId, c);
  }

  class SyncManager {
    const google: GoogleTasks.GoogleTasksService
    const reminders: Reminders.RemindersService

    /** `init()`, given the two services as their own `init`s leave them. */
    constructor (google: GoogleTasks.GoogleTasksService, reminders: Reminders.RemindersService)
      ensures this.google == google && this.reminders == reminders
    {
      this.google := google;
      this.reminders := reminders;
    }

    /** The two stores the apply phase changes. */
    function Current(): Stores
      reads google`store, reminders`reminders
    {
      Stores(google.store, reminders.reminders)
    }

    /** The lists and clocks the apply phase reads. */
    function Ctx(): Context
      reads google`taskListId, google`now, reminders`reminderList, reminders`now
    {
      Context(google.taskListId,
              if reminders.reminderList.Some? then Some(reminders.reminderList.value.identifier) else None,
              google.now, reminders.now)
    }

    /** `setup()`: the Reminders list first; when that throws, Google Tasks is not touched; otherwise
        the outcome is Google's. After a successful setup each service holds the first list bearing
        its name. */
    method Setup() returns (r: Outcome<Error>)
      modifies reminders`reminderList, reminders`calendars, reminders`nextId, reminders`calls
      modifies google`taskListId, google`lists, google`nextId, google`calls
      ensures old(reminders.SetupFails()) ==>
        r == Fail(RemoteFailure(old(reminders.calls))) &&
        unchanged(google`taskListId, google`lists, google`nextId, google`calls)
      ensures !old(reminders.SetupFails()) ==>
        Reminders.FirstCalendarTitled(reminders.calendars, Reminders.ListName).Some? &&
        reminders.reminderList ==
          Some(reminders.calendars[Reminders.FirstCalendarTitled(reminders.calendars, Reminders.ListName).value])
      ensures !old(reminders.SetupFails()) && old(google.calls) in google.faults ==>
        r == Fail(RemoteFailure(old(google.calls)))
      ensures !old(reminders.SetupFails()) && old(google.calls) !in google.faults && old(google.lists) == [] ==>
        r == Fail(NoTaskLists)
      ensures !old(reminders.SetupFails()) && old(google.calls) !in google.faults &&
              GoogleTasks.FirstTitled(old(google.lists), GoogleTasks.ListName).Some? ==>
        r == Pass
      ensures !old(reminders.SetupFails()) && old(google.calls) !in google.faults && old(google.lists) != [] &&
              GoogleTasks.FirstTitled(old(google.lists), GoogleTasks.ListName).None? ==>
        (r == Pass <==> old(google.calls) + 1 !in google.faults)
      ensures r.Pass? ==>
        reminders.reminderList.Some? && reminders.reminderList.value.title == Reminders.ListName &&
        GoogleTasks.FirstTitled(google.lists, GoogleTasks.ListName).Some? &&
        google.taskListId == google.lists[GoogleTasks.FirstTitled(google.lists, GoogleTasks.ListName).value].identifier
    {
      r := reminders.Setup();
      if r.Fail? {
        return;
      }
      r := google.Setup();
    }

    /** The creation loop: `createReminder` on a draft of every fetched Google task, stopping at the
        first error. Every call reaches RemindersService. */
    method ApplyCreations(tasks: seq<Task>) returns (r: Outcome<Error>, ghost issued: seq<Call>)
      modifies reminders`reminders, reminders`nextId, reminders`calls, reminders`log
      ensures FailFast(issued, CreationOps(tasks), r.Pass?)
      ensures r.Fail? ==> issued != []
      ensures reminders.log == old(reminders.log) + issued
      ensures old(reminders.reminders) <= reminders.reminders
      ensures r.Pass? ==>
        reminders.reminders == old(reminders.reminders) +
          Created(tasks, old(reminders.nextId), Ctx().calendarId.GetOr(""), reminders.now)
      ensures r.Pass? && reminders.reminderList.None? ==> tasks == []
      ensures r.Pass? ==> |reminders.reminders| == old(|reminders.reminders|) + |tasks|
    {
      ghost var firstId, calendarId := reminders.nextId, Ctx().calendarId.GetOr("");
      issued := [];
      for i := 0 to |tasks|
        invariant |issued| == i
        invariant forall k :: 0 <= k < i ==> issued[k] == Call(CreationOps(tasks)[k], true)
        invariant reminders.log == old(reminders.log) + issued
        invariant reminders.reminderList.None? ==> i == 0 && reminders.reminders == old(reminders.reminders)
        invariant reminders.reminderList.Some? ==>
          reminders.nextId == firstId + i &&
          reminders.reminders == old(reminders.reminders) + Created(tasks[..i], firstId, calendarId, reminders.now)
      {
        var created := reminders.CreateReminder(Draft(tasks[i]));
        FailFastStep(issued, CreationOps(tasks), Call(CreateReminderOp(Draft(tasks[i])), created.Success?));
        issued := issued + [Call(CreateReminderOp(Draft(tasks[i])), created.Success?)];
        if created.Failure? {
          return Fail(created.error), issued;
        }
        CreatedStep(tasks, i, firstId, calendarId, reminders.now);
      }
      assert tasks[..|tasks|] == tasks;
      FailFastAll(issued, CreationOps(tasks));
      r := Pass;
    }

    /** One turn of the update loop: the `switch task.source` that sends the update to `updateTask` or
        to `updateReminder`. */
    method UpdateOne(task: Task) returns (res: Outcome<Error>)
      modifies google`store, google`calls, google`log, reminders`reminders, reminders`calls, reminders`log
      ensures ToGoogle(UpdateOp(task)) ==>
        google.log == old(google.log) + [Call(UpdateOp(task), res.Pass?)] && reminders.log == old(reminders.log)
      ensures !ToGoogle(UpdateOp(task)) ==>
        reminders.log == old(reminders.log) + [Call(UpdateOp(task), res.Pass?)] && google.log == old(google.log)
      ensures res.Pass? ==> Current() == UpdateEffect(old(Current()), task, Ctx())
      ensures res.Fail? ==> Current() == old(Current())
    {
      match task.source {
        case GoogleTasks(_) =>
          var updated := google.UpdateTask(task);
          res := if updated.Success? then Pass else Fail(updated.error);
        case AppleReminders(_) =>
          var updated := reminders.UpdateReminder(task);
          res := if updated.Success? then Pass else Fail(updated.error);
      }
    }

    /** Turn `i` of the update loop: after it each log holds its part of one more call, and the stores
        have the update applied when it returned. */
    method UpdateStep(updates: seq<Task>, i: nat, ghost issued: seq<Call>, ghost start: Stores,
                      ghost googleBase: seq<Call>, ghost remindersBase: seq<Call>) returns (res: Outcome<Error>)
      requires i < |updates|
      requires Current() == Updated(start, updates[..i], Ctx())
      requires google.log == googleBase + GoogleCalls(issued)
      requires reminders.log == remindersBase + RemindersCalls(issued)
      modifies google`store, google`calls, google`log, reminders`reminders, reminders`calls, reminders`log
      ensures google.log == googleBase + GoogleCalls(issued + [Call(UpdateOp(updates[i]), res.Pass?)])
      ensures reminders.log == remindersBase + RemindersCalls(issued + [Call(UpdateOp(updates[i]), res.Pass?)])
      ensures res.Pass? ==> Current() == Updated(start, updates[..i + 1], Ctx())
      ensures res.Fail? ==> Current() == Updated(start, updates[..i], Ctx())
    {
      assert updates[..i + 1][..i] == updates[..i];
      ghost var googleLog, remindersLog := google.log, reminders.log;
      res := UpdateOne(updates[i]);
      LogsStep(googleLog, googleBase, remindersLog, remindersBase, issued, Call(UpdateOp(updates[i]), res.Pass?));
    }

    /** The update loop: each update to `updateTask` or `updateReminder` by its source, stopping at the
        first error. Each service receives exactly the calls meant for it, and the stores end as the
        returned updates leave them, in order. */
    method ApplyUpdates(updates: seq<Task>) returns (r: Outcome<Error>, ghost issued: seq<Call>)
      modifies google`store, google`calls, google`log, reminders`reminders, reminders`calls, reminders`log
      ensures FailFast(issued, UpdateOps(updates), r.Pass?)
      ensures r.Fail? ==> issued != []
      ensures google.log == old(google.log) + GoogleCalls(issued)
      ensures reminders.log == old(reminders.log) + RemindersCalls(issued)
      ensures r.Pass? ==> Current() == Updated(old(Current()), updates, Ctx())
      ensures r.Fail? ==> Current() == Updated(old(Current()), updates[..|issued| - 1], Ctx())
      ensures |google.store| == old(|google.store|) && |reminders.reminders| == old(|reminders.reminders|)
    {
      ghost var start, context := Current(), Ctx();
      issued := [];
      for i := 0 to |updates|
        invariant |issued| == i
        invariant forall k :: 0 <= k < i ==> issued[k] == Call(UpdateOps(updates)[k], true)
        invariant google.log == old(google.log) + GoogleCalls(issued)
        invariant reminders.log == old(reminders.log) + RemindersCalls(issued)
        invariant Ctx() == context
        invariant Current() == Updated(start, updates[..i], context)
      {
        var res := UpdateStep(updates, i, issued, start, old(google.log), old(reminders.log));
        FailFastStep(issued, UpdateOps(updates), Call(UpdateOp(updates[i]), res.Pass?));
        issued := issued + [Call(UpdateOp(updates[i]), res.Pass?)];
        if res.Fail? {
          assert updates[..|issued| - 1] == updates[..i];
          return res, issued;
        }
      }
      assert updates[..|updates|] == updates;
      FailFastAll(issued, UpdateOps(updates));
      r := Pass;
    }

    /** One turn of the delete loop: the `switch task.source` that sends the delete to `deleteTask` or
        to `deleteReminder`. */
    method DeleteOne(task: Task) returns (res: Outcome<Error>)
      modifies google`store, google`calls, google`log, reminders`reminders, reminders`calls, reminders`log
      ensures ToGoogle(DeleteOp(task)) ==>
        google.log == old(google.log) + [Call(DeleteOp(task), res.Pass?)] && reminders.log == old(reminders.log)
      ensures !ToGoogle(DeleteOp(task)) ==>
        reminders.log == old(reminders.log) + [Call(DeleteOp(task), res.Pass?)] && google.log == old(google.log)
      ensures res.Pass? ==> Current() == DeleteEffect(old(Current()), task, Ctx())
      ensures res.Fail? ==> Current() == old(Current())
    {
      match task.source {
        case GoogleTasks(_) =>
          res := google.DeleteTask(task);
        case AppleReminders(_) =>
          res := reminders.DeleteReminder(task);
      }
    }

    /** Turn `i` of the delete loop: after it each log holds its part of one more call, and the stores
        have the delete applied when it returned. */
    method DeleteStep(deletions: seq<Task>, i: nat, ghost issued: seq<Call>, ghost start: Stores,
                      ghost googleBase: seq<Call>, ghost remindersBase: seq<Call>) returns (res: Outcome<Error>)
      requires i < |deletions|
      requires Current() == Deleted(start, deletions[..i], Ctx())
      requires google.log == googleBase + GoogleCalls(issued)
      requires reminders.log == remindersBase + RemindersCalls(issued)
      modifies google`store, google`calls, google`log, reminders`reminders, reminders`calls, reminders`log
      ensures google.log == googleBase + GoogleCalls(issued + [Call(DeleteOp(deletions[i]), res.Pass?)])
      ensures reminders.log == remindersBase + RemindersCalls(issued + [Call(DeleteOp(deletions[i]), res.Pass?)])
      ensures res.Pass? ==> Current() == Deleted(start, deletions[..i + 1], Ctx())
      ensures res.Fail? ==> Current() == Deleted(start, deletions[..i], Ctx())
    {
      assert deletions[..i + 1][..i] == deletions[..i];
      ghost var googleLog, remindersLog := google.log, reminders.log;
      res := DeleteOne(deletions[i]);
      LogsStep(googleLog, googleBase, remindersLog, remindersBase, issued, Call(DeleteOp(deletions[i]), res.Pass?));
    }

    /** The delete loop: each delete to `deleteTask` or `deleteReminder` by its source, stopping at the
        first error. Each service receives exactly the calls meant for it, and the stores end as the
        returned deletes leave them, in order. */
    method ApplyDeletions(deletions: seq<Task>) returns (r: Outcome<Error>, ghost issued: seq<Call>)
      modifies google`store, google`calls, google`log, reminders`reminders, reminders`calls, reminders`log
      ensures FailFast(issued, DeleteOps(deletions), r.Pass?)
      ensures r.Fail? ==> issued != []
      ensures google.log == old(google.log) + GoogleCalls(issued)
      ensures reminders.log == old(reminders.log) + RemindersCalls(issued)
      ensures r.Pass? ==> Current() == Deleted(old(Current()), deletions, Ctx())
      ensures r.Fail? ==> Current() == Deleted(old(Current()), deletions[..|issued| - 1], Ctx())
    {
      ghost var start, context := Current(), Ctx();
      issued := [];
      for i := 0 to |deletions|
        invariant |issued| == i
        invariant forall k :: 0 <= k < i ==> issued[k] == Call(DeleteOps(deletions)[k], true)
        invariant google.log == old(google.log) + GoogleCalls(issued)
        invariant reminders.log == old(reminders.log) + RemindersCalls(issued)
        invariant Ctx() == context
        invariant Current() == Deleted(start, deletions[..i], context)
      {
        var res := DeleteStep(deletions, i, issued, start, old(google.log), old(reminders.log));
        FailFastStep(issued, DeleteOps(deletions), Call(DeleteOp(deletions[i]), res.Pass?));
        issued := issued + [Call(DeleteOp(deletions[i]), res.Pass?)];
        if res.Fail? {
          assert deletions[..|issued| - 1] == deletions[..i];
          return res, issued;
        }
      }
      assert deletions[..|deletions|] == deletions;
      FailFastAll(issued, DeleteOps(deletions));
      r := Pass;
    }

    /** The update loop and then the delete loop, the second only when the first ran through. */
    method ApplyChanges(plan: Plan) returns (r: Outcome<Error>, ghost issued: seq<Call>)
      modifies google`store, google`calls, google`log, reminders`reminders, reminders`calls, reminders`log
      ensures FailFast(issued, UpdateOps(plan.toUpdate) + DeleteOps(plan.toDelete), r.Pass?)
      ensures r.Fail? ==> issued != []
      ensures google.log == old(google.log) + GoogleCalls(issued)
      ensures reminders.log == old(reminders.log) + RemindersCalls(issued)
      ensures r.Pass? ==> Current() == Deleted(Updated(old(Current()), plan.toUpdate, Ctx()), plan.toDelete, Ctx())
    {
      var updated, updatedCalls := ApplyUpdates(plan.toUpdate);
      if updated.Fail? {
        FailFastStops(updatedCalls, UpdateOps(plan.toUpdate), DeleteOps(plan.toDelete));
        return updated, updatedCalls;
      }
      var deleted, deletedCalls := ApplyDeletions(plan.toDelete);
      FailFastThen(updatedCalls, UpdateOps(plan.toUpdate), deletedCalls, DeleteOps(plan.toDelete), deleted.Pass?);
      GoogleLogsOfParts(old(google.log), updatedCalls, deletedCalls);
      RemindersLogsOfParts(old(reminders.log), updatedCalls, deletedCalls);
      r, issued := deleted, updatedCalls + deletedCalls;
    }

    /** The apply phase of `sync()`: the schedule (`createReminder` for every Google task, then the
        updates, then the deletes) until the first error. Each service receives exactly its part of
        the calls issued, and after a successful run the stores are as the whole plan leaves them. */
    method Apply(tasks: seq<Task>, plan: Plan) returns (r: Outcome<Error>, ghost issued: seq<Call>)
      modifies google`calls, google`store, google`log
      modifies reminders`reminders, reminders`nextId, reminders`calls, reminders`log
      ensures FailFast(issued, Schedule(tasks, plan), r.Pass?)
      ensures r.Fail? ==> issued != []
      ensures google.log == old(google.log) + GoogleCalls(issued)
      ensures reminders.log == old(reminders.log) + RemindersCalls(issued)
      ensures issued == [] ==> reminders.reminders == old(reminders.reminders)
      ensures r.Pass? ==> Current() == Applied(old(Current()), tasks, plan, old(reminders.nextId), Ctx())
      ensures r.Pass? && plan.toDelete == [] ==> |reminders.reminders| == old(|reminders.reminders|) + |tasks|
    {
      ghost var start, context := Current(), Ctx();
      var created, createdCalls := ApplyCreations(tasks);
      ghost var afterCreations := Current();
      CreationsSkipGoogle(createdCalls);
      CreationsToReminders(createdCalls);
      if created.Fail? {
        FailFastStops(createdCalls, CreationOps(tasks), UpdateOps(plan.toUpdate) + DeleteOps(plan.toDelete));
        assert old(google.log) + [] == old(google.log);
        return created, createdCalls;
      }
      assert afterCreations == start.(reminders := start.reminders +
        Created(tasks, old(reminders.nextId), context.calendarId.GetOr(""), context.remindersNow));
      var changed, changedCalls := ApplyChanges(plan);
      FailFastThen(createdCalls, CreationOps(tasks), changedCalls, UpdateOps(plan.toUpdate) + DeleteOps(plan.toDelete),
                   changed.Pass?);
      GoogleLogsOfParts(old(google.log), createdCalls, changedCalls);
      RemindersLogsOfParts(old(reminders.log), createdCalls, changedCalls);
      assert old(google.log) + [] == old(google.log);
      r, issued := changed, createdCalls + changedCalls;
    }

    /** `sync()`: fetch both sides (a fetch error ends the run before any change), plan, then apply.
        On success the stores are as the plan made from the two snapshots leaves them, which gives
        Reminders one new reminder per fetched Google task. */
    method Sync() returns (r: Outcome<Error>, ghost tasks: seq<Task>, ghost localReminders: seq<Task>,
                           ghost issued: seq<Call>)
      modifies google`calls, google`store, google`log
      modifies reminders`reminders, reminders`nextId, reminders`calls, reminders`log
      ensures google.taskListId.None? ==>
        r == Fail(TaskListNotInitialized) && issued == [] && unchanged(google`calls, google`store)
      ensures google.taskListId.Some? && old(google.calls) in google.faults ==>
        r == Fail(RemoteFailure(old(google.calls))) && issued == [] && google.store == old(google.store)
      ensures google.taskListId.Some? && old(google.calls) !in google.faults && reminders.reminderList.None? ==>
        r == Fail(RemindersListNotFound) && issued == [] && google.store == old(google.store)
      ensures issued == [] ==> reminders.reminders == old(reminders.reminders)
      ensures google.log == old(google.log) + GoogleCalls(issued)
      ensures reminders.log == old(reminders.log) + RemindersCalls(issued)
      ensures google.taskListId.Some? && old(google.calls) !in google.faults && reminders.reminderList.Some? ==>
        tasks == old(google.Listed()) && localReminders == old(reminders.FetchReminders()).value &&
        FailFast(issued, Schedule(tasks, Planned(tasks, localReminders)), r.Pass?) &&
        (r.Fail? ==> issued != [])
      ensures r.Pass? ==>
        Current() == Applied(old(Current()), tasks, Planned(tasks, localReminders), old(reminders.nextId), Ctx())
      ensures r.Pass? ==> |reminders.reminders| == old(|reminders.reminders|) + |tasks|
    {
      tasks, localReminders, issued := [], [], [];
      var fetched := google.FetchTasks();
      if fetched.Failure? {
        return Fail(fetched.error), tasks, localReminders, issued;
      }
      var googleTasks := fetched.value;
      tasks := googleTasks;
      var local := reminders.FetchReminders();
      if local.Failure? {
        return Fail(local.error), tasks, localReminders, issued;
      }
      var snapshot := local.value;
      localReminders := snapshot;

      var plan := Analyse(googleTasks, snapshot);
      r, issued := Apply(googleTasks, plan);
    }
  }
}
