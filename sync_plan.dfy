/** What `SyncManager.sync()` (Services/SyncManager.swift) decides, stated as functions of the two
    snapshots: the lookup dictionaries, the lists of tasks to create and to update, and the calls the
    apply phase makes in order. The imperative code that computes them is in module SyncManager. */
module SyncPlan {
  import opened Wrappers
  import opened TaskModel
  import opened ServiceCalls

  /** The composite lookup key `"\(title)_\(id)"`. */
  function Key(t: Task): (k: string)
    ensures |k| == |t.title| + 1 + |t.id|
    ensures k[..|t.title|] == t.title && k[|t.title|] == '_' && k[|t.title| + 1..] == t.id
  {
    t.title + "_" + t.id
  }

  /** Changing the source of a copy does not change its key. */
  lemma KeyIgnoresSource(t: Task, s: Source)
    ensures Key(WithSource(t, s)) == Key(t)
  {
  }

  /** The key does not determine title and id: whenever one task's title is another's title, '_' and
      a middle part, and the other's id is that middle part, '_' and the first one's id, the two keys
      meet (`Pay` with id `bills_1` and `Pay_bills` with id `1`). */
  lemma KeyIsAmbiguous(a: Task, b: Task, middle: string)
    requires b.title == a.title + "_" + middle && a.id == middle + "_" + b.id
    ensures Key(a) == Key(b) && a.title != b.title && a.id != b.id
  {
    assert Key(a) == a.title + "_" + middle + "_" + b.id;
    assert Key(b) == a.title + "_" + middle + "_" + b.id;
  }

  /** `tasks.reduce(into: [:]) { dict[key(task)] = task }`: every task stored under its key, a later
      task replacing an earlier one with the same key. */
  function Index(ts: seq<Task>): (d: map<string, Task>)
    ensures forall k :: k in d ==> Key(d[k]) == k && d[k] in ts
    decreases |ts|
  {
    if ts == [] then map[]
    else
      var last := ts[|ts| - 1];
      var d := Index(ts[..|ts| - 1]);
      assert forall t :: t in ts[..|ts| - 1] ==> t in ts;
      d[Key(last) := last]
  }

  /** A key is in the dictionary iff some task has it. */
  lemma {:induction false} IndexHasKey(ts: seq<Task>, k: string)
    ensures k in Index(ts) <==> exists i :: 0 <= i < |ts| && Key(ts[i]) == k
    decreases |ts|
  {
    if ts != [] {
      var init := ts[..|ts| - 1];
      IndexHasKey(init, k);
      if k in Index(init) {
        var i :| 0 <= i < |init| && Key(init[i]) == k;
        assert ts[i] == init[i];
      }
      if exists i :: 0 <= i < |ts| && Key(ts[i]) == k {
        var i :| 0 <= i < |ts| && Key(ts[i]) == k;
        if i < |init| {
          assert init[i] == ts[i];
        }
      }
    }
  }

  /** No task after position `i` has key `k`. */
  ghost predicate LastWithKey(ts: seq<Task>, i: int, k: string) {
    0 <= i < |ts| && Key(ts[i]) == k && forall j :: i < j < |ts| ==> Key(ts[j]) != k
  }

  /** A key maps to the last task in fetch order that has it: when two tasks share a key, the
      dictionary keeps the later one. */
  lemma {:induction false} IndexLastWins(ts: seq<Task>, k: string)
    requires k in Index(ts)
    ensures exists i :: LastWithKey(ts, i, k) && Index(ts)[k] == ts[i]
    decreases |ts|
  {
    var n := |ts| - 1;
    var init := ts[..n];
    if Key(ts[n]) == k {
      assert LastWithKey(ts, n, k) && Index(ts)[k] == ts[n];
    } else {
      assert Index(ts)[k] == Index(init)[k];
      IndexLastWins(init, k);
      var i :| LastWithKey(init, i, k) && Index(init)[k] == init[i];
      assert init[i] == ts[i];
      forall j | i < j < |ts|
        ensures Key(ts[j]) != k
      {
        if j < n {
          assert ts[j] == init[j];
        }
      }
      assert LastWithKey(ts, i, k);
    }
  }

  /** `tasks.reduce(into: [:]) { dict[task.title, default: []].append(task) }` (built and never read). */
  function GroupByTitle(ts: seq<Task>): map<string, seq<Task>>
    decreases |ts|
  {
    if ts == [] then map[]
    else
      var last := ts[|ts| - 1];
      var g := GroupByTitle(ts[..|ts| - 1]);
      g[last.title := (if last.title in g then g[last.title] else []) + [last]]
  }

  /** The tasks with the given title, in their order: the reference for the title grouping. */
  function WithTitle(ts: seq<Task>, title: string): (r: seq<Task>)
    ensures forall i :: 0 <= i < |r| ==> r[i].title == title
    decreases |ts|
  {
    if ts == [] then []
    else WithTitle(ts[..|ts| - 1], title) + (if ts[|ts| - 1].title == title then [ts[|ts| - 1]] else [])
  }

  /** The grouping has a title iff some task has it, and holds exactly that title's tasks in fetch order. */
  lemma {:induction false} GroupByTitleIsFilter(ts: seq<Task>, title: string)
    ensures title in GroupByTitle(ts) <==> exists i :: 0 <= i < |ts| && ts[i].title == title
    ensures title in GroupByTitle(ts) ==> GroupByTitle(ts)[title] == WithTitle(ts, title)
    decreases |ts|
  {
    if ts != [] {
      var init := ts[..|ts| - 1];
      GroupByTitleIsFilter(init, title);
      assert forall i :: 0 <= i < |init| ==> init[i] == ts[i];
      if title !in GroupByTitle(init) {
        assert WithTitle(init, title) == [] by {
          WithTitleEmpty(init, title);
        }
      }
    }
  }

  /** No task with the title, no task in the filter. */
  lemma {:induction false} WithTitleEmpty(ts: seq<Task>, title: string)
    requires forall i :: 0 <= i < |ts| ==> ts[i].title != title
    ensures WithTitle(ts, title) == []
    decreases |ts|
  {
    if ts != [] {
      WithTitleEmpty(ts[..|ts| - 1], title);
    }
  }

  /** The copy queued for creation in Reminders: `source = .appleReminders(reminderId: "")`. */
  function Draft(t: Task): Task {
    WithSource(t, AppleReminders(""))
  }

  /** What one Google task adds to `tasksToCreate`. */
  function CreateStep(g: Task, remindersDict: map<string, Task>): seq<Task> {
    if Key(g) in remindersDict then [] else [Draft(g)]
  }

  /** `tasksToCreate`: a draft of each Google task whose key no reminder has, in fetch order. */
  function ToCreate(tasks: seq<Task>, remindersDict: map<string, Task>): seq<Task>
    decreases |tasks|
  {
    if tasks == [] then []
    else ToCreate(tasks[..|tasks| - 1], remindersDict) + CreateStep(tasks[|tasks| - 1], remindersDict)
  }

  /** What one Google task adds to `tasksToUpdate`: the matched reminder with Google's content, when
      Google's copy is strictly newer. */
  function GoogleSideStep(g: Task, remindersDict: map<string, Task>): seq<Task> {
    if Key(g) in remindersDict && g.lastModified > remindersDict[Key(g)].lastModified
    then [CopyContent(remindersDict[Key(g)], g)]
    else []
  }

  /** What one reminder adds to `tasksToUpdate`: the matched Google task with the reminder's content,
      when the reminder is strictly newer; nothing for an unmatched reminder. */
  function ReminderSideStep(r: Task, googleDict: map<string, Task>): seq<Task> {
    if Key(r) in googleDict && r.lastModified > googleDict[Key(r)].lastModified
    then [CopyContent(googleDict[Key(r)], r)]
    else []
  }

  function GoogleSideUpdates(tasks: seq<Task>, remindersDict: map<string, Task>): seq<Task>
    decreases |tasks|
  {
    if tasks == [] then []
    else GoogleSideUpdates(tasks[..|tasks| - 1], remindersDict) + GoogleSideStep(tasks[|tasks| - 1], remindersDict)
  }

  function ReminderSideUpdates(reminders: seq<Task>, googleDict: map<string, Task>): seq<Task>
    decreases |reminders|
  {
    if reminders == [] then []
    else ReminderSideUpdates(reminders[..|reminders| - 1], googleDict) + ReminderSideStep(reminders[|reminders| - 1], googleDict)
  }

  /** The three lists of the planning phase; `tasksToDelete` is the constant `[]`. */
  datatype Plan = Plan(toCreate: seq<Task>, toUpdate: seq<Task>, toDelete: seq<Task>)

  /** The plan `sync()` makes from the Google snapshot and the Reminders snapshot. */
  function Planned(tasks: seq<Task>, reminders: seq<Task>): Plan {
    var googleDict := Index(tasks);
    var remindersDict := Index(reminders);
    Plan(ToCreate(tasks, remindersDict),
         GoogleSideUpdates(tasks, remindersDict) + ReminderSideUpdates(reminders, googleDict),
         [])
  }

  /** Planning over two runs of tasks is planning over each, one after the other: so every Google task
      contributes its own step, once and in fetch order. */
  lemma {:induction false} ToCreateConcat(a: seq<Task>, b: seq<Task>, d: map<string, Task>)
    ensures ToCreate(a + b, d) == ToCreate(a, d) + ToCreate(b, d)
    decreases |b|
  {
    if b == [] {
      assert a + b == a;
    } else {
      assert (a + b)[..|a + b| - 1] == a + b[..|b| - 1];
      ToCreateConcat(a, b[..|b| - 1], d);
    }
  }

  lemma {:induction false} GoogleSideConcat(a: seq<Task>, b: seq<Task>, d: map<string, Task>)
    ensures GoogleSideUpdates(a + b, d) == GoogleSideUpdates(a, d) + GoogleSideUpdates(b, d)
    decreases |b|
  {
    if b == [] {
      assert a + b == a;
    } else {
      assert (a + b)[..|a + b| - 1] == a + b[..|b| - 1];
      GoogleSideConcat(a, b[..|b| - 1], d);
    }
  }

  lemma {:induction false} ReminderSideConcat(a: seq<Task>, b: seq<Task>, d: map<string, Task>)
    ensures ReminderSideUpdates(a + b, d) == ReminderSideUpdates(a, d) + ReminderSideUpdates(b, d)
    decreases |b|
  {
    if b == [] {
      assert a + b == a;
    } else {
      assert (a + b)[..|a + b| - 1] == a + b[..|b| - 1];
      ReminderSideConcat(a, b[..|b| - 1], d);
    }
  }

  /** `tasksToCreate` holds exactly the drafts of the unmatched Google tasks: each has source
      `.appleReminders(reminderId: "")` and every other field of its Google task. */
  lemma {:induction false} ToCreateMembers(tasks: seq<Task>, d: map<string, Task>, t: Task)
    ensures t in ToCreate(tasks, d) <==> exists g :: g in tasks && Key(g) !in d && t == Draft(g)
    decreases |tasks|
  {
    if tasks != [] {
      var init := tasks[..|tasks| - 1];
      ToCreateMembers(init, d, t);
      assert tasks == init + [tasks[|tasks| - 1]];
      forall g | g in tasks && Key(g) !in d && t == Draft(g)
        ensures t in ToCreate(tasks, d)
      {
        if g !in init {
          assert g == tasks[|tasks| - 1];
        }
      }
    }
  }

  /** A queued update from the Google side is the matched reminder with Google's newer content: it keeps
      the reminder's id, source and timestamp. */
  lemma {:induction false} GoogleSideMembers(tasks: seq<Task>, d: map<string, Task>, u: Task)
    ensures u in GoogleSideUpdates(tasks, d) <==>
      exists g :: g in tasks && Key(g) in d && g.lastModified > d[Key(g)].lastModified && u == CopyContent(d[Key(g)], g)
    decreases |tasks|
  {
    if tasks != [] {
      var init := tasks[..|tasks| - 1];
      GoogleSideMembers(init, d, u);
      assert tasks == init + [tasks[|tasks| - 1]];
      forall g | g in tasks && Key(g) in d && g.lastModified > d[Key(g)].lastModified && u == CopyContent(d[Key(g)], g)
        ensures u in GoogleSideUpdates(tasks, d)
      {
        if g !in init {
          assert g == tasks[|tasks| - 1];
        }
      }
    }
  }

  /** Symmetrically, a queued update from the Reminders side is the matched Google task with the
      reminder's newer content, keeping the Google id and source. */
  lemma {:induction false} ReminderSideMembers(reminders: seq<Task>, d: map<string, Task>, u: Task)
    ensures u in ReminderSideUpdates(reminders, d) <==>
      exists r :: r in reminders && Key(r) in d && r.lastModified > d[Key(r)].lastModified && u == CopyContent(d[Key(r)], r)
    decreases |reminders|
  {
    if reminders != [] {
      var init := reminders[..|reminders| - 1];
      ReminderSideMembers(init, d, u);
      assert reminders == init + [reminders[|reminders| - 1]];
      forall r | r in reminders && Key(r) in d && r.lastModified > d[Key(r)].lastModified && u == CopyContent(d[Key(r)], r)
        ensures u in ReminderSideUpdates(reminders, d)
      {
        if r !in init {
          assert r == reminders[|reminders| - 1];
        }
      }
    }
  }

  /** When no reminder is strictly newer than the Google task its key matches, the Reminders loop
      queues no update. */
  lemma NoNewerReminderNoUpdates(reminders: seq<Task>, d: map<string, Task>)
    requires forall r :: r in reminders && Key(r) in d ==> r.lastModified <= d[Key(r)].lastModified
    ensures ReminderSideUpdates(reminders, d) == []
  {
    var ups := ReminderSideUpdates(reminders, d);
    if ups != [] {
      ReminderSideMembers(reminders, d, ups[0]);
    }
  }

  /** A matched pair yields at most one update, and none when the timestamps are equal: each side is
      queued only when it is strictly newer than the other. */
  lemma AtMostOneUpdatePerPair(tasks: seq<Task>, reminders: seq<Task>, g: Task, r: Task)
    requires Key(g) in Index(reminders) && Index(reminders)[Key(g)] == r
    requires Key(r) in Index(tasks) && Index(tasks)[Key(r)] == g
    ensures GoogleSideStep(g, Index(reminders)) == [] || ReminderSideStep(r, Index(tasks)) == []
    ensures g.lastModified == r.lastModified ==>
      GoogleSideStep(g, Index(reminders)) == [] && ReminderSideStep(r, Index(tasks)) == []
    ensures GoogleSideStep(g, Index(reminders)) != [] <==> g.lastModified > r.lastModified
    ensures ReminderSideStep(r, Index(tasks)) != [] <==> r.lastModified > g.lastModified
  {
  }

  /** Adding an entry under a key no Google task has changes neither Google-side list. */
  lemma {:induction false} UnusedKeyIrrelevant(tasks: seq<Task>, d: map<string, Task>, k: string, x: Task)
    requires forall i :: 0 <= i < |tasks| ==> Key(tasks[i]) != k
    ensures ToCreate(tasks, d[k := x]) == ToCreate(tasks, d)
    ensures GoogleSideUpdates(tasks, d[k := x]) == GoogleSideUpdates(tasks, d)
    decreases |tasks|
  {
    if tasks != [] {
      UnusedKeyIrrelevant(tasks[..|tasks| - 1], d, k, x);
    }
  }

  /** A reminder whose key no Google task has produces no action of any kind: adding it to the
      Reminders snapshot leaves the plan as it was. */
  lemma UnmatchedReminderIgnored(tasks: seq<Task>, reminders: seq<Task>, r: Task)
    requires Key(r) !in Index(tasks)
    ensures Planned(tasks, reminders + [r]) == Planned(tasks, reminders)
  {
    var all := reminders + [r];
    assert all[..|all| - 1] == reminders;
    IndexHasKey(tasks, Key(r));
    UnusedKeyIrrelevant(tasks, Index(reminders), Key(r), r);
  }

  /** When no Google key is a Reminders key, every Google task is queued for creation and nothing for
      update. */
  lemma {:induction false} NothingMatchedPlan(tasks: seq<Task>, reminders: seq<Task>)
    requires forall i :: 0 <= i < |tasks| ==> Key(tasks[i]) !in Index(reminders)
    requires forall j :: 0 <= j < |reminders| ==> Key(reminders[j]) !in Index(tasks)
    ensures Planned(tasks, reminders).toCreate == seq(|tasks|, i requires 0 <= i < |tasks| => Draft(tasks[i]))
    ensures Planned(tasks, reminders).toUpdate == []
  {
    NoMatchCreatesAll(tasks, Index(reminders));
    NoMatchNoGoogleUpdates(tasks, Index(reminders));
    NoMatchNoReminderUpdates(reminders, Index(tasks));
  }

  lemma {:induction false} NoMatchCreatesAll(tasks: seq<Task>, d: map<string, Task>)
    requires forall i :: 0 <= i < |tasks| ==> Key(tasks[i]) !in d
    ensures ToCreate(tasks, d) == seq(|tasks|, i requires 0 <= i < |tasks| => Draft(tasks[i]))
    decreases |tasks|
  {
    if tasks != [] {
      NoMatchCreatesAll(tasks[..|tasks| - 1], d);
    }
  }

  lemma {:induction false} NoMatchNoGoogleUpdates(tasks: seq<Task>, d: map<string, Task>)
    requires forall i :: 0 <= i < |tasks| ==> Key(tasks[i]) !in d
    ensures GoogleSideUpdates(tasks, d) == []
    decreases |tasks|
  {
    if tasks != [] {
      NoMatchNoGoogleUpdates(tasks[..|tasks| - 1], d);
    }
  }

  lemma {:induction false} NoMatchNoReminderUpdates(reminders: seq<Task>, d: map<string, Task>)
    requires forall i :: 0 <= i < |reminders| ==> Key(reminders[i]) !in d
    ensures ReminderSideUpdates(reminders, d) == []
    decreases |reminders|
  {
    if reminders != [] {
      NoMatchNoReminderUpdates(reminders[..|reminders| - 1], d);
    }
  }

  /** The `switch task.source` of the update loop. */
  function UpdateOp(t: Task): (op: Op)
    ensures op.task == t
    ensures op.UpdateTaskOp? <==> t.source.GoogleTasks?
    ensures op.UpdateReminderOp? <==> t.source.AppleReminders?
  {
    match t.source
    case GoogleTasks(_) => UpdateTaskOp(t)
    case AppleReminders(_) => UpdateReminderOp(t)
  }

  /** The `switch task.source` of the delete loop. */
  function DeleteOp(t: Task): (op: Op)
    ensures op.task == t
    ensures op.DeleteTaskOp? <==> t.source.GoogleTasks?
    ensures op.DeleteReminderOp? <==> t.source.AppleReminders?
  {
    match t.source
    case GoogleTasks(_) => DeleteTaskOp(t)
    case AppleReminders(_) => DeleteReminderOp(t)
  }

  /** The calls of the apply phase, in order: `createReminder` for every fetched Google task (not
      only those in `tasksToCreate`), then each update sent by its source, then each delete. */
  function Schedule(tasks: seq<Task>, plan: Plan): seq<Op> {
    CreationOps(tasks) + (UpdateOps(plan.toUpdate) + DeleteOps(plan.toDelete))
  }

  /** The first loop of the apply phase: a draft of each fetched Google task to `createReminder`. */
  function CreationOps(tasks: seq<Task>): (ops: seq<Op>)
    ensures |ops| == |tasks|
    ensures forall i :: 0 <= i < |tasks| ==> ops[i] == CreateReminderOp(Draft(tasks[i]))
  {
    seq(|tasks|, i requires 0 <= i < |tasks| => CreateReminderOp(Draft(tasks[i])))
  }

  /** The second loop: each update to the service its source names. */
  function UpdateOps(updates: seq<Task>): (ops: seq<Op>)
    ensures |ops| == |updates|
    ensures forall i :: 0 <= i < |updates| ==> ops[i] == UpdateOp(updates[i])
  {
    seq(|updates|, i requires 0 <= i < |updates| => UpdateOp(updates[i]))
  }

  /** The third loop: each delete to the service its source names. */
  function DeleteOps(deletions: seq<Task>): (ops: seq<Op>)
    ensures |ops| == |deletions|
    ensures forall i :: 0 <= i < |deletions| ==> ops[i] == DeleteOp(deletions[i])
  {
    seq(|deletions|, i requires 0 <= i < |deletions| => DeleteOp(deletions[i]))
  }

  /** The calls issued by a run that stops at the first thrown error: a prefix of the schedule, every
      call but the last returned, the last threw if the run failed, and a successful run issued all. */
  ghost predicate FailFast(issued: seq<Call>, schedule: seq<Op>, succeeded: bool) {
    && |issued| <= |schedule|
    && (forall k :: 0 <= k < |issued| ==> issued[k].op == schedule[k])
    && (forall k :: 0 <= k < |issued| - 1 ==> issued[k].ok)
    && (succeeded ==> |issued| == |schedule| && (issued == [] || issued[|issued| - 1].ok))
    && (!succeeded && issued != [] ==> !issued[|issued| - 1].ok)
  }

  /** A run whose calls so far all returned, extended by the next call of the schedule: when that call
      threw, the run is a failed run of the schedule; when it returned, all calls still returned. */
  lemma FailFastStep(done: seq<Call>, schedule: seq<Op>, c: Call)
    requires |done| < |schedule|
    requires forall k :: 0 <= k < |done| ==> done[k] == Call(schedule[k], true)
    requires c.op == schedule[|done|]
    ensures !c.ok ==> FailFast(done + [c], schedule, false)
    ensures c.ok ==> forall k :: 0 <= k < |done| + 1 ==> (done + [c])[k] == Call(schedule[k], true)
  {
  }

  /** A run in which every call of the schedule was issued and returned is a successful run. */
  lemma FailFastAll(done: seq<Call>, schedule: seq<Op>)
    requires |done| == |schedule|
    requires forall k :: 0 <= k < |done| ==> done[k] == Call(schedule[k], true)
    ensures FailFast(done, schedule, true)
  {
  }

  /** A complete, successful run of one part followed by a run of the next is a run of both. */
  lemma FailFastThen(a: seq<Call>, sa: seq<Op>, b: seq<Call>, sb: seq<Op>, succeeded: bool)
    requires FailFast(a, sa, true)
    requires FailFast(b, sb, succeeded)
    requires !succeeded ==> b != []
    ensures FailFast(a + b, sa + sb, succeeded)
  {
  }

  /** A run that failed in one part never reaches the next. */
  lemma FailFastStops(a: seq<Call>, sa: seq<Op>, sb: seq<Op>)
    requires FailFast(a, sa, false)
    ensures FailFast(a, sa + sb, false)
  {
  }

  /** The apply phase never deletes: the plan's delete list is empty, so no call in the schedule is a
      delete. */
  lemma NoDeleteIssued(tasks: seq<Task>, reminders: seq<Task>, k: nat)
    requires k < |Schedule(tasks, Planned(tasks, reminders))|
    ensures !Schedule(tasks, Planned(tasks, reminders))[k].DeleteTaskOp?
    ensures !Schedule(tasks, Planned(tasks, reminders))[k].DeleteReminderOp?
  {
  }

  /** Every fetched Google task is sent to `createReminder`, in fetch order, even one whose key matched
      a reminder and so is not in `tasksToCreate`. */
  lemma MatchedTaskStillCreated(tasks: seq<Task>, reminders: seq<Task>, k: nat)
    requires k < |tasks|
    requires Key(tasks[k]) in Index(reminders)
    ensures Schedule(tasks, Planned(tasks, reminders))[k] == CreateReminderOp(Draft(tasks[k]))
    ensures Draft(tasks[k]) !in Planned(tasks, reminders).toCreate
  {
    var d := Index(reminders);
    if Draft(tasks[k]) in ToCreate(tasks, d) {
      ToCreateMembers(tasks, d, Draft(tasks[k]));
      assert false;
    }
  }

  /** With snapshots as the two services return them (Google tasks carry `.googleTasks`, reminders
      `.appleReminders`), every update from the Google side goes to `updateReminder` and every update
      from the Reminders side to `updateTask`, so the source guards never throw. */
  lemma UpdatesRouted(tasks: seq<Task>, reminders: seq<Task>)
    requires forall i :: 0 <= i < |tasks| ==> tasks[i].source.GoogleTasks?
    requires forall i :: 0 <= i < |reminders| ==> reminders[i].source.AppleReminders?
    ensures forall u :: u in GoogleSideUpdates(tasks, Index(reminders)) ==> UpdateOp(u).UpdateReminderOp?
    ensures forall u :: u in ReminderSideUpdates(reminders, Index(tasks)) ==> UpdateOp(u).UpdateTaskOp?
  {
    forall u | u in GoogleSideUpdates(tasks, Index(reminders))
      ensures UpdateOp(u).UpdateReminderOp?
    {
      GoogleSideMembers(tasks, Index(reminders), u);
    }
    forall u | u in ReminderSideUpdates(reminders, Index(tasks))
      ensures UpdateOp(u).UpdateTaskOp?
    {
      ReminderSideMembers(reminders, Index(tasks), u);
    }
  }
}
