/** The calls `SyncManager.sync()` makes into the two services while it applies its plan, as the
    services record them: each service keeps a log of the calls it received, in order, with whether
    each one returned or threw. */
module ServiceCalls {
  import opened TaskModel

  /** One store call of the apply phase. */
  datatype Op =
    | CreateReminderOp(task: Task)
    | UpdateTaskOp(task: Task)
    | UpdateReminderOp(task: Task)
    | DeleteTaskOp(task: Task)
    | DeleteReminderOp(task: Task)

  /** A store call as issued, and whether it returned or threw. */
  datatype Call = Call(op: Op, ok: bool)

  /** Whether a call goes to GoogleTasksService (`updateTask`, `deleteTask`) rather than to
      RemindersService. */
  predicate ToGoogle(op: Op) {
    op.UpdateTaskOp? || op.DeleteTaskOp?
  }

  /** The calls of a run that GoogleTasksService receives, in order. */
  function GoogleCalls(cs: seq<Call>): (r: seq<Call>)
    ensures |r| <= |cs|
    decreases |cs|
  {
    if cs == [] then []
    else
      var last := cs[|cs| - 1];
      GoogleCalls(cs[..|cs| - 1]) + (if ToGoogle(last.op) then [last] else [])
  }

  /** The calls of a run that RemindersService receives, in order. */
  function RemindersCalls(cs: seq<Call>): (r: seq<Call>)
    ensures |r| <= |cs|
    decreases |cs|
  {
    if cs == [] then []
    else
      var last := cs[|cs| - 1];
      RemindersCalls(cs[..|cs| - 1]) + (if ToGoogle(last.op) then [] else [last])
  }

  /** One more call lands in the log of the service it goes to, and in no other. */
  lemma CallsSnoc(cs: seq<Call>, c: Call)
    ensures GoogleCalls(cs + [c]) == GoogleCalls(cs) + (if ToGoogle(c.op) then [c] else [])
    ensures RemindersCalls(cs + [c]) == RemindersCalls(cs) + (if ToGoogle(c.op) then [] else [c])
  {
    assert (cs + [c])[..|cs|] == cs;
  }

  /** A log that holds a run's Google calls after `base` holds, once a call to Google is added, the
      longer run's Google calls. */
  lemma GoogleLogAppend(log: seq<Call>, base: seq<Call>, cs: seq<Call>, c: Call)
    requires log == base + GoogleCalls(cs) && ToGoogle(c.op)
    ensures log + [c] == base + GoogleCalls(cs + [c])
  {
    CallsSnoc(cs, c);
  }

  /** A call to RemindersService adds nothing to the Google calls of a run. */
  lemma GoogleLogSkip(log: seq<Call>, base: seq<Call>, cs: seq<Call>, c: Call)
    requires log == base + GoogleCalls(cs) && !ToGoogle(c.op)
    ensures log == base + GoogleCalls(cs + [c])
  {
    CallsSnoc(cs, c);
  }

  /** A log that holds a run's Reminders calls after `base` holds, once a call to RemindersService is
      added, the longer run's Reminders calls. */
  lemma RemindersLogAppend(log: seq<Call>, base: seq<Call>, cs: seq<Call>, c: Call)
    requires log == base + RemindersCalls(cs) && !ToGoogle(c.op)
    ensures log + [c] == base + RemindersCalls(cs + [c])
  {
    CallsSnoc(cs, c);
  }

  /** A call to Google adds nothing to the Reminders calls of a run. */
  lemma RemindersLogSkip(log: seq<Call>, base: seq<Call>, cs: seq<Call>, c: Call)
    requires log == base + RemindersCalls(cs) && ToGoogle(c.op)
    ensures log == base + RemindersCalls(cs + [c])
  {
    CallsSnoc(cs, c);
  }

  /** The two logs after one more call: the service it goes to logs it, the other logs nothing, and
      both logs still hold exactly their part of the run so far. */
  lemma LogsStep(googleLog: seq<Call>, googleBase: seq<Call>, remindersLog: seq<Call>, remindersBase: seq<Call>,
                 cs: seq<Call>, c: Call)
    requires googleLog == googleBase + GoogleCalls(cs)
    requires remindersLog == remindersBase + RemindersCalls(cs)
    ensures ToGoogle(c.op) ==>
      googleLog + [c] == googleBase + GoogleCalls(cs + [c]) &&
      remindersLog == remindersBase + RemindersCalls(cs + [c])
    ensures !ToGoogle(c.op) ==>
      googleLog == googleBase + GoogleCalls(cs + [c]) &&
      remindersLog + [c] == remindersBase + RemindersCalls(cs + [c])
  {
    if ToGoogle(c.op) {
      GoogleLogAppend(googleLog, googleBase, cs, c);
      RemindersLogSkip(remindersLog, remindersBase, cs, c);
    } else {
      GoogleLogSkip(googleLog, googleBase, cs, c);
      RemindersLogAppend(remindersLog, remindersBase, cs, c);
    }
  }

  /** The calls of two runs, one after the other, reach GoogleTasksService as its calls of the first
      run followed by its calls of the second. */
  lemma {:induction false} GoogleCallsConcat(a: seq<Call>, b: seq<Call>)
    ensures GoogleCalls(a + b) == GoogleCalls(a) + GoogleCalls(b)
    decreases |b|
  {
    if b == [] {
      assert a + b == a;
    } else {
      var init, last := b[..|b| - 1], b[|b| - 1];
      GoogleCallsConcat(a, init);
      assert a + b == (a + init) + [last];
      assert b == init + [last];
      CallsSnoc(a + init, last);
      CallsSnoc(init, last);
    }
  }

  /** The same for RemindersService. */
  lemma {:induction false} RemindersCallsConcat(a: seq<Call>, b: seq<Call>)
    ensures RemindersCalls(a + b) == RemindersCalls(a) + RemindersCalls(b)
    decreases |b|
  {
    if b == [] {
      assert a + b == a;
    } else {
      var init, last := b[..|b| - 1], b[|b| - 1];
      RemindersCallsConcat(a, init);
      assert a + b == (a + init) + [last];
      assert b == init + [last];
      CallsSnoc(a + init, last);
      CallsSnoc(init, last);
    }
  }

  /** A log that received the Google calls of one run and then those of the next holds the Google
      calls of the two runs together. */
  lemma GoogleLogsOfParts(base: seq<Call>, a: seq<Call>, b: seq<Call>)
    ensures base + GoogleCalls(a) + GoogleCalls(b) == base + GoogleCalls(a + b)
  {
    GoogleCallsConcat(a, b);
  }

  /** The same for RemindersService. */
  lemma RemindersLogsOfParts(base: seq<Call>, a: seq<Call>, b: seq<Call>)
    ensures base + RemindersCalls(a) + RemindersCalls(b) == base + RemindersCalls(a + b)
  {
    RemindersCallsConcat(a, b);
  }

  /** Every call of a run reaches exactly one of the two services. */
  lemma {:induction false} CallsSplit(cs: seq<Call>)
    ensures |GoogleCalls(cs)| + |RemindersCalls(cs)| == |cs|
    decreases |cs|
  {
    if cs != [] {
      CallsSplit(cs[..|cs| - 1]);
    }
  }

  /** A run of creations reaches GoogleTasksService not at all. */
  lemma {:induction false} CreationsSkipGoogle(cs: seq<Call>)
    requires forall k :: 0 <= k < |cs| ==> cs[k].op.CreateReminderOp?
    ensures GoogleCalls(cs) == []
    decreases |cs|
  {
    if cs != [] {
      CreationsSkipGoogle(cs[..|cs| - 1]);
    }
  }

  /** A run of creations reaches RemindersService with every call. */
  lemma {:induction false} CreationsToReminders(cs: seq<Call>)
    requires forall k :: 0 <= k < |cs| ==> cs[k].op.CreateReminderOp?
    ensures RemindersCalls(cs) == cs
    decreases |cs|
  {
    if cs != [] {
      CreationsToReminders(cs[..|cs| - 1]);
      assert cs[..|cs| - 1] + [cs[|cs| - 1]] == cs;
    }
  }
}
