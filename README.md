# gTasks-RemindersSync in Dafny

A model of the core of gTasks-RemindersSync, a macOS command-line tool that copies the tasks of the
Google Tasks list "🗓️ Reclaim" into the Apple Reminders list "GTasks". It covers these parts:

- **Task** (`task.dfy`, module `TaskModel`): the shared task record and the error cases of the services.
- **Environment** (`text.dfy`, `environment.dfy`): reading the OAuth settings from the process environment,
  loading `.envlocal` line by line into it, and rewriting `.envlocal` with a new `GOOGLE_TOKEN`. The
  Foundation string operations this needs (`components(separatedBy: .newlines)`, `trimmingCharacters`,
  `split(separator:maxSplits:)`, `joined`) are written out over Unicode scalars in module `Text`.
- **GoogleTasksService** (`google_tasks.dfy`): a class over an in-memory Tasks account. It models the
  list bootstrap of `setup`, the mapping of API items to tasks in `fetchTasks`, and the guards,
  status mapping and store effect of `createTask`, `updateTask` and `deleteTask`.
- **RemindersService** (`reminders.dfy`): a class over an in-memory event store. It models the
  "GTasks" calendar bootstrap, `fetchReminders`, the `fetchReminder(withId:)` lookup, and
  `createReminder`, `updateReminder` and `deleteReminder`.
- **Service calls** (`calls.dfy`, module `ServiceCalls`): the store calls of the apply phase. Each
  service keeps a ghost log that its `createReminder`, `updateTask`, `updateReminder`, `deleteTask` and
  `deleteReminder` append to, with whether the call returned. A run of calls splits into the part each
  log receives.
- **SyncManager**: `sync_plan.dfy` states what `sync()` decides as functions of the two snapshots:
  the composite-key dictionaries, the title grouping, `tasksToCreate`, `tasksToUpdate`, and the
  order of the store calls it makes. `sync_manager.dfy` holds the loops of `sync()`, proved against
  those functions, and a class that drives the two services through `setup()` and `sync()`. The
  effect of the apply phase on the two stores is stated as a fold (`Updated`, `Deleted`, `Applied`)
  of the store effects the services' own contracts name.

The model follows the code as written, including where it falls short of a two-way sync:

- The apply phase calls `createReminder` for every fetched Google task, including tasks whose key
  already matched a reminder. `tasksToCreate` is computed and never used
  (`SyncPlan.MatchedTaskStillCreated`).
- No reminder is ever turned into a Google task, and nothing is deleted
  (`SyncPlan.UnmatchedReminderIgnored`, `SyncPlan.NoDeleteIssued`).
- Matching uses the composite key `title + "_" + id`. Two different tasks can share it
  (`SyncPlan.KeyIsAmbiguous`).
- A matched pair yields an update only in the direction of the strictly newer side, never both
  (`SyncPlan.AtMostOneUpdatePerPair`). Completion is copied from the newer side; it is not merged.

Services fail by throwing; here every throw is a `Failure`/`Fail` value. A store or network call
fails when its sequence number is in the service's `faults` set. Identifiers the server assigns are
drawn from a counter. Dates are opaque integers.

## Model

| member | source | states |
|---|---|---|
| TaskModel.NewTask | Sources/gTasks-RemindersSync/Models/Task.swift:3-20 | the memberwise initialiser stores every given field, and `needsSync` defaults to false |
| TaskModel.WithSource | Sources/gTasks-RemindersSync/Services/SyncManager.swift:72-73 | assigning `source` changes only the source |
| TaskModel.CopyContent | Sources/gTasks-RemindersSync/Services/SyncManager.swift:62-66 | the update copy keeps the target's id, source and lastModified, and takes title, notes, due date and completion from the other side |
| Environment.GoogleClientId | Sources/gTasks-RemindersSync/Config/Environment.swift:9-14 | succeeds iff GOOGLE_CLIENT_ID is set, returning its value; otherwise throws missingClientId |
| Environment.GoogleClientSecret | Sources/gTasks-RemindersSync/Config/Environment.swift:16-21 | succeeds iff GOOGLE_CLIENT_SECRET is set, returning its value; otherwise throws missingClientSecret |
| Environment.GoogleToken | Sources/gTasks-RemindersSync/Config/Environment.swift:23-25 | a value iff GOOGLE_TOKEN is set, and then that value |
| Environment.SetEnv | Sources/gTasks-RemindersSync/Config/Environment.swift:79 | `setenv` with overwrite receives the key and the value as C strings, cut at their first U+0000: a resulting name that is non-empty and free of '=' is set to the cut value and no other variable changes; an empty name or one holding '=' changes nothing |
| Environment.SetEnvWhole | Sources/gTasks-RemindersSync/Config/Environment.swift:79 | a key and a value without U+0000, the key non-empty and free of '=', are set exactly as given |
| Environment.SetEnvCutsKey | Sources/gTasks-RemindersSync/Config/Environment.swift:79 | a key `A\0B` sets `A`, whatever follows the U+0000, and a key starting with U+0000 sets nothing |
| Environment.Unquote | Sources/gTasks-RemindersSync/Config/Environment.swift:75-77 | a value that starts and ends with '"' loses its first and last character; any other value is kept |
| Environment.ParseLine | Sources/gTasks-RemindersSync/Config/Environment.swift:62-80 | a line yields a key and a value iff its trimmed form is non-empty, does not start with '#' and splits at '=' into exactly two pieces; the key then contains no '=' |
| Environment.ApplyLine | Sources/gTasks-RemindersSync/Config/Environment.swift:62-80 | one line of the file: a line that parses gives its key the value through `setenv`, any other line leaves the environment as it was |
| Environment.LoadLines | Sources/gTasks-RemindersSync/Config/Environment.swift:60-80 | the lines handled in file order, each by `ApplyLine` on the environment the earlier ones left |
| Environment.LoadedEnv | Sources/gTasks-RemindersSync/Config/Environment.swift:48-85 | a missing or unreadable file leaves the environment as it was; otherwise the text is split at newlines and its lines are loaded in order |
| Environment.LoadEnvFile | Sources/gTasks-RemindersSync/Config/Environment.swift:48-85 | the loop over the file's lines ends in `LoadedEnv`, the lines applied in order; without a file the environment is unchanged |
| Environment.LoadLinesStep | Sources/gTasks-RemindersSync/Config/Environment.swift:62 | each loop iteration applies exactly the next line |
| Environment.SkippedLineSetsNothing | Sources/gTasks-RemindersSync/Config/Environment.swift:63-67 | blank lines and lines starting with '#' after trimming change nothing |
| Environment.ParseKeyValue | Sources/gTasks-RemindersSync/Config/Environment.swift:69-77 | `KEY=VALUE`, with KEY free of '=', parses to KEY and the unquoted VALUE, even when VALUE holds further '=' characters |
| Environment.ParseSpacedKeyValue | Sources/gTasks-RemindersSync/Config/Environment.swift:63-77 | whitespace around the line, around the key and around the value is ignored: `  KEY = VALUE  ` parses to KEY and the unquoted VALUE |
| Environment.TrimSpacedLine | Sources/gTasks-RemindersSync/Config/Environment.swift:63 | trimming a padded line removes exactly the padding at its two ends |
| Environment.SplitSpacedLine | Sources/gTasks-RemindersSync/Config/Environment.swift:69 | a line `KEY<spaces>=<spaces>VALUE` splits at its first '=' into the padded key and the padded value |
| Environment.TrimSpacedParts | Sources/gTasks-RemindersSync/Config/Environment.swift:71-72 | trimming the two pieces gives back the bare key and the bare value |
| Environment.ParseTrimmed | Sources/gTasks-RemindersSync/Config/Environment.swift:63-77 | conversely, whenever the trimmed line splits into two pieces, the key and value set are those pieces trimmed, the value unquoted |
| Environment.KeyValueLine | Sources/gTasks-RemindersSync/Config/Environment.swift:69-79 | applying such a line sets exactly the key up to its first U+0000 to the unquoted value up to its first U+0000; a key starting with U+0000 sets nothing |
| Environment.KeyWithoutValue | Sources/gTasks-RemindersSync/Config/Environment.swift:69-70 | `KEY=` splits into one piece and sets nothing |
| Environment.ValueWithoutKey | Sources/gTasks-RemindersSync/Config/Environment.swift:69-70 | `=VALUE` splits into one piece and sets nothing |
| Environment.LoadLinesSnoc | Sources/gTasks-RemindersSync/Config/Environment.swift:62 | loading one more line applies it after all the earlier ones |
| Environment.ApplyLineSets | Sources/gTasks-RemindersSync/Config/Environment.swift:79 | a parsed line whose key, up to its first U+0000, is non-empty leaves that name bound to the value up to its first U+0000 |
| Environment.ApplyLineKeeps | Sources/gTasks-RemindersSync/Config/Environment.swift:79 | a line that parses to another key, or to nothing, keeps an existing binding |
| Environment.LaterLineWins | Sources/gTasks-RemindersSync/Config/Environment.swift:62-80 | when a name is set by several lines, the value of the last of them (up to its first U+0000) is in the environment after loading; the name is the parsed key up to its first U+0000 |
| Environment.LoadKeeps | Sources/gTasks-RemindersSync/Config/Environment.swift:62-80 | lines none of which sets a key keep the value the earlier lines gave it |
| Environment.AllLeaveFromEach | Sources/gTasks-RemindersSync/Config/Environment.swift:62-80 | lines none of which sets a key satisfy the line-by-line form of that fact used by the induction |
| Environment.LoadLeaves | Sources/gTasks-RemindersSync/Config/Environment.swift:62-80 | lines none of which sets a key leave it bound, or unbound, as the earlier lines left it |
| Environment.ApplyLineLeaves | Sources/gTasks-RemindersSync/Config/Environment.swift:79 | a line that does not set a key leaves it bound, or unbound, as before |
| Environment.LoadKeepsStep | Sources/gTasks-RemindersSync/Config/Environment.swift:62-80 | one more line that does not set a key keeps its value |
| Environment.SaveGoogleToken | Sources/gTasks-RemindersSync/Config/Environment.swift:27-46 | rewrites the file iff it could be read |
| Environment.WithoutTokenLines | Sources/gTasks-RemindersSync/Config/Environment.swift:36-37 | the kept lines are lines of the file and none of them starts with `GOOGLE_TOKEN=` |
| Environment.WithoutTokenLinesConcat | Sources/gTasks-RemindersSync/Config/Environment.swift:37 | `filter` works line by line: the lines kept from two runs of lines are those kept from the first followed by those kept from the second, so the kept lines keep their order |
| Environment.WithoutTokenLinesOne | Sources/gTasks-RemindersSync/Config/Environment.swift:37 | a single line is dropped iff it starts with `GOOGLE_TOKEN=` |
| Environment.WithoutTokenLinesKeeps | Sources/gTasks-RemindersSync/Config/Environment.swift:37 | every line that does not start with `GOOGLE_TOKEN=` is kept |
| Environment.SavedLines | Sources/gTasks-RemindersSync/Config/Environment.swift:36-40 | the saved text splits into the kept lines (or one empty line if none was kept), then `GOOGLE_TOKEN=<token>`, then an empty last line |
| Environment.SavedTail | Sources/gTasks-RemindersSync/Config/Environment.swift:40 | the appended text contributes exactly the token line and one empty last line |
| Environment.TokenLineIsOneLine | Sources/gTasks-RemindersSync/Config/Environment.swift:40 | the line `GOOGLE_TOKEN=<token>` holds no newline when the token holds none |
| Environment.KeptLinesAreLines | Sources/gTasks-RemindersSync/Config/Environment.swift:36-37 | the lines kept by the filter hold no newline character |
| Environment.TokenVarIsPlainKey | Sources/gTasks-RemindersSync/Config/Environment.swift:71 | the name GOOGLE_TOKEN is non-empty, free of '=', not a comment, and has no whitespace at its ends |
| Environment.TokenVarReachesC | Sources/gTasks-RemindersSync/Config/Environment.swift:79 | the name GOOGLE_TOKEN holds no U+0000, so `setenv` receives it whole |
| Environment.UnquoteUntouched | Sources/gTasks-RemindersSync/Config/Environment.swift:75-77 | a value not wrapped in double quotes keeps all its characters |
| Environment.TokenLineParses | Sources/gTasks-RemindersSync/Config/Environment.swift:40 | the appended token line parses back to GOOGLE_TOKEN and the token |
| Environment.SaveThenLoad | Sources/gTasks-RemindersSync/Config/Environment.swift:27-85 | loading a file just saved with a token sets GOOGLE_TOKEN to exactly that token, up to its first U+0000, whatever the file held before, for every token that survives the line parser |
| Environment.TokenLineLast | Sources/gTasks-RemindersSync/Config/Environment.swift:40-85 | lines ending with the appended token line and the final empty line set GOOGLE_TOKEN to the token, up to its first U+0000, whatever the earlier lines hold |
| Environment.SaveKeepsOtherKeys | Sources/gTasks-RemindersSync/Config/Environment.swift:27-85 | loading a file just saved with a token gives every key other than GOOGLE_TOKEN the same value, or the same absence, as loading the file before the save |
| Environment.WithoutTokenLinesKeepOthers | Sources/gTasks-RemindersSync/Config/Environment.swift:36-37 | removing the `GOOGLE_TOKEN=` lines does not change what loading the lines gives any other key |
| Environment.ApplyLineSame | Sources/gTasks-RemindersSync/Config/Environment.swift:79 | one line applied to two environments that agree on a key leaves them agreeing on it |
| Environment.TokenLineLeavesOther | Sources/gTasks-RemindersSync/Config/Environment.swift:37 | a line starting with `GOOGLE_TOKEN=` sets no other key |
| Environment.TokenLineKey | Sources/gTasks-RemindersSync/Config/Environment.swift:37-72 | a line starting with `GOOGLE_TOKEN=` parses to the key GOOGLE_TOKEN or to nothing |
| Environment.TrimKeepsStart | Sources/gTasks-RemindersSync/Config/Environment.swift:63 | a line starting with a prefix that has no whitespace at its ends still starts with it after trimming |
| Text.SplitLines | Sources/gTasks-RemindersSync/Config/Environment.swift:60 | `components(separatedBy: .newlines)` gives at least one line, and no line contains a newline character |
| Text.IsNewline | Sources/gTasks-RemindersSync/Config/Environment.swift:60 | membership in `CharacterSet.newlines`: U+000A to U+000D, U+0085, U+2028 and U+2029, by which both `loadEnvFile` and `saveGoogleToken` (line 36) split the file |
| Text.IsWhitespace | Sources/gTasks-RemindersSync/Config/Environment.swift:63 | membership in `CharacterSet.whitespaces`: general category Zs plus the tab, trimmed from the line and from the key and the value (lines 71-72) |
| Text.SplitLinesOfLine | Sources/gTasks-RemindersSync/Config/Environment.swift:60 | a text without newline characters is one line |
| Text.SplitLinesAppend | Sources/gTasks-RemindersSync/Config/Environment.swift:36-40 | splitting at a '\n' splits the lines of the two sides apart |
| Text.SplitJoin | Sources/gTasks-RemindersSync/Config/Environment.swift:36-37 | lines joined with '\n' split back into the same lines |
| Text.Join | Sources/gTasks-RemindersSync/Config/Environment.swift:37 | `joined(separator:)`: no parts give the empty text, one part gives itself, and further parts follow the separator one by one |
| Text.JoinSplit | Sources/gTasks-RemindersSync/Config/Environment.swift:36-37 | a text whose only newline character is '\n' is rebuilt by splitting and joining |
| Text.Trim | Sources/gTasks-RemindersSync/Config/Environment.swift:63 | the result is the input with exactly its leading and its trailing whitespace removed: it starts right after the leading whitespace, only whitespace follows it, and it has no whitespace at either end |
| Text.TrimAround | Sources/gTasks-RemindersSync/Config/Environment.swift:63 | trimming whitespace + text + whitespace, where the text has no whitespace at its ends, gives back the text |
| Text.LeadingWhitespace | Sources/gTasks-RemindersSync/Config/Environment.swift:63 | the count of whitespace characters the text starts with: all of them are whitespace and the next one is not |
| Text.TrailingWhitespace | Sources/gTasks-RemindersSync/Config/Environment.swift:63 | the count of whitespace characters the text ends with: all of them are whitespace and the one before is not |
| Text.TrimUntouched | Sources/gTasks-RemindersSync/Config/Environment.swift:71-72 | trimming a text that has no whitespace at its ends leaves it unchanged |
| Text.FirstIndexOf | Sources/gTasks-RemindersSync/Config/Environment.swift:69 | the position of the first occurrence, or none iff the character does not occur |
| Text.UpToNul | Sources/gTasks-RemindersSync/Config/Environment.swift:79 | what C reads of a string passed to `setenv`: the characters before the first U+0000, a prefix holding no U+0000 that is either the whole string or followed by U+0000 |
| Text.UpToNulWhole | Sources/gTasks-RemindersSync/Config/Environment.swift:79 | a string without U+0000 reaches C whole |
| Text.UpToNulCuts | Sources/gTasks-RemindersSync/Config/Environment.swift:79 | a string `a\0b` reaches C as `a` |
| Text.UpToNulKeepsOut | Sources/gTasks-RemindersSync/Config/Environment.swift:79 | a character absent from a string is absent from what C reads of it |
| Text.SplitOnEquals | Sources/gTasks-RemindersSync/Config/Environment.swift:69 | `split(separator: "=", maxSplits: 1)` gives at most two pieces, none of them empty, and the first piece contains no '=' |
| Text.SplitOnEqualsAtFirst | Sources/gTasks-RemindersSync/Config/Environment.swift:69 | `a=b`, with `a` free of '=', splits into `a` and all of `b` |
| Text.SplitOnEqualsNoValue | Sources/gTasks-RemindersSync/Config/Environment.swift:69 | `a=` gives the single piece `a` |
| Text.SplitOnEqualsNoKey | Sources/gTasks-RemindersSync/Config/Environment.swift:69 | `=b` gives the single piece `b` |
| Text.StartsWith | Sources/gTasks-RemindersSync/Config/Environment.swift:37 | `starts(with:)`/`hasPrefix`: the prefix is no longer than the text and equals its first characters |
| Text.EndsWith | Sources/gTasks-RemindersSync/Config/Environment.swift:75 | `hasSuffix`: the suffix is no longer than the text and equals its last characters |
| Text.DropFirst | Sources/gTasks-RemindersSync/Config/Environment.swift:76 | `dropFirst()` is one character shorter, and an empty text stays empty |
| Text.DropLast | Sources/gTasks-RemindersSync/Config/Environment.swift:76 | `dropLast()` is one character shorter, and an empty text stays empty |
| GoogleTasks.ParseStamp | Sources/gTasks-RemindersSync/Services/GoogleTasksService.swift:201-211 | a date iff the string is present and parses |
| GoogleTasks.StatusFor | Sources/gTasks-RemindersSync/Services/GoogleTasksService.swift:240 | "completed" iff the task is completed, "needsAction" iff it is not |
| GoogleTasks.IsCompletedStatus | Sources/gTasks-RemindersSync/Services/GoogleTasksService.swift:218 | completed iff the status is exactly "completed" |
| GoogleTasks.StatusRoundTrip | Sources/gTasks-RemindersSync/Services/GoogleTasksService.swift:218-240 | the status sent for a completion flag reads back as the same flag |
| GoogleTasks.ItemToTask | Sources/gTasks-RemindersSync/Services/GoogleTasksService.swift:192-222 | an item becomes a task iff it has an identifier and a title; the task's id is the identifier, its source is `.googleTasks` of the same id, and it carries the item's title and notes, the parsed due date, completion iff the status is "completed", and the parsed `updated` time or else the current time |
| GoogleTasks.ItemsToTasks | Sources/gTasks-RemindersSync/Services/GoogleTasksService.swift:192-222 | `compactMap` returns no more tasks than items, and each of them has source `.googleTasks(id)` |
| GoogleTasks.ItemsToTasksConcat | Sources/gTasks-RemindersSync/Services/GoogleTasksService.swift:192 | each item contributes its own task or nothing, in response order |
| GoogleTasks.ItemsToTasksCount | Sources/gTasks-RemindersSync/Services/GoogleTasksService.swift:192-194 | no item is dropped iff every item has an identifier and a title; all are dropped when none has both |
| GoogleTasks.TasksFromResponse | Sources/gTasks-RemindersSync/Services/GoogleTasksService.swift:180-184 | a response without `items` gives no tasks |
| GoogleTasks.ListResponse | Sources/gTasks-RemindersSync/Services/GoogleTasksService.swift:169-184 | the `tasks.list` response for one list: its stored items in store order, no more than are stored, and `items` absent (never an empty array) when the list has none; the same assumption makes `Setup` read an account without lists as a response without `items` (lines 126-130) |
| GoogleTasks.Outgoing | Sources/gTasks-RemindersSync/Services/GoogleTasksService.swift:234-240 | the object sent carries the task's title and notes, a due date iff the task has one, and the status for its completion flag |
| GoogleTasks.OutgoingRoundTrip | Sources/gTasks-RemindersSync/Services/GoogleTasksService.swift:251-269 | a task sent to the server and read back has the same title, notes, due date and completion, and the server's identifier as both id and source |
| GoogleTasks.Received | Sources/gTasks-RemindersSync/Services/GoogleTasksService.swift:251-269 | what the server keeps of a task sent by `createTask`/`updateTask`: the object sent, with the identifier the server gives it and the server time as `updated` |
| GoogleTasks.FirstTitled | Sources/gTasks-RemindersSync/Services/GoogleTasksService.swift:133 | `first(where:)` finds the first list with the title, or none iff no list has it |
| GoogleTasks.FirstTitledAppend | Sources/gTasks-RemindersSync/Services/GoogleTasksService.swift:133-158 | a list created because none had the title is then the first with it |
| GoogleTasks.FindItem | Sources/gTasks-RemindersSync/Services/GoogleTasksService.swift:293 | the first task of the list with the identifier: no earlier stored task of that list has it; none iff the list holds no such task |
| GoogleTasks.AfterUpdate | Sources/gTasks-RemindersSync/Services/GoogleTasksService.swift:293-324 | a returned `tasks.update` replaces exactly the first task of the list with the source's `taskId` by the task's content under that identifier, and keeps every other entry and the store's size |
| GoogleTasks.AfterDelete | Sources/gTasks-RemindersSync/Services/GoogleTasksService.swift:335-345 | a returned `tasks.delete` removes exactly that task, keeping the other entries in order; an unknown identifier changes nothing |
| GoogleTasks.GoogleTasksService.constructor | Sources/gTasks-RemindersSync/Services/GoogleTasksService.swift:6-12 | a new service has no task list chosen |
| GoogleTasks.GoogleTasksService.Listed | Sources/gTasks-RemindersSync/Services/GoogleTasksService.swift:164-227 | what `fetchTasks` returns once a list is chosen and the query returns: the tasks of the list's response, mapped by `compactMap` |
| GoogleTasks.GoogleTasksService.Setup | Sources/gTasks-RemindersSync/Services/GoogleTasksService.swift:115-162 | a failed listing throws and changes nothing; no lists throws "No task lists found"; otherwise it keeps the identifier of the first list titled "🗓️ Reclaim", or inserts such a list and keeps its new identifier (a failed insert throws); on success the chosen list is the first with that title |
| GoogleTasks.GoogleTasksService.FetchTasks | Sources/gTasks-RemindersSync/Services/GoogleTasksService.swift:164-227 | throws "Task list not initialized" without a list and makes no call; otherwise one call, returning the list's tasks as mapped by `compactMap`, or throwing the call's error |
| GoogleTasks.GoogleTasksService.CreateTask | Sources/gTasks-RemindersSync/Services/GoogleTasksService.swift:229-274 | throws "Task list not initialized" without a list; otherwise the task's content is appended to the list under a new identifier and returned as a task, unless the call throws, in which case the list is unchanged |
| GoogleTasks.GoogleTasksService.UpdateTask | Sources/gTasks-RemindersSync/Services/GoogleTasksService.swift:276-324 | the list guard comes first, then "Invalid task source" for a non-Google task; otherwise the stored task named by the source's `taskId` is replaced with the task's content (`AfterUpdate`), and an unknown id or a failed call throws with nothing changed; every call is appended to the service's log with its outcome |
| GoogleTasks.GoogleTasksService.DeleteTask | Sources/gTasks-RemindersSync/Services/GoogleTasksService.swift:326-346 | the same guards; otherwise exactly the task named by the source is removed (`AfterDelete`), and an unknown id or a failed call throws with nothing changed; every call is appended to the service's log with its outcome |
| Reminders.ReminderToTask | Sources/gTasks-RemindersSync/Services/RemindersService.swift:70-80 | a reminder's identifier is both the id and the source's reminderId; a missing title reads as ""; notes, due date and completion are copied; lastModified falls back to the current time |
| Reminders.RemindersToTasks | Sources/gTasks-RemindersSync/Services/RemindersService.swift:70-80 | `map` gives one task per reminder, at the same position and with that reminder's identifier |
| Reminders.RemindersToTasksConcat | Sources/gTasks-RemindersSync/Services/RemindersService.swift:70 | each reminder contributes one task, in order |
| Reminders.InCalendar | Sources/gTasks-RemindersSync/Services/RemindersService.swift:61 | the predicate keeps only reminders stored in that calendar |
| Reminders.InCalendarMembers | Sources/gTasks-RemindersSync/Services/RemindersService.swift:61 | a reminder is listed iff it is stored in that calendar |
| Reminders.FirstCalendarTitled | Sources/gTasks-RemindersSync/Services/RemindersService.swift:40 | the first calendar titled "GTasks", or none iff there is none |
| Reminders.FirstCalendarTitledAppend | Sources/gTasks-RemindersSync/Services/RemindersService.swift:40-50 | a calendar saved because none had the title is then the first with it |
| Reminders.FirstWithId | Sources/gTasks-RemindersSync/Services/RemindersService.swift:213 | the first reminder of the calendar with the identifier, or none iff there is none |
| Reminders.AfterEdit | Sources/gTasks-RemindersSync/Services/RemindersService.swift:161-174 | a saved update overwrites exactly the first reminder of the calendar with the identifier, as `Edited` says, and keeps every other reminder and the store's size |
| Reminders.AfterRemove | Sources/gTasks-RemindersSync/Services/RemindersService.swift:192-196 | a committed removal drops exactly that reminder, keeping the others in order; an unknown identifier changes nothing |
| Reminders.Drafted | Sources/gTasks-RemindersSync/Services/RemindersService.swift:94-123 | a new reminder takes the task's title, notes and completion, and the due date as both its due and start date |
| Reminders.Edited | Sources/gTasks-RemindersSync/Services/RemindersService.swift:165-172 | an update overwrites title, notes, due date (cleared when the task has none) and completion; identifier, calendar and start date are kept |
| Reminders.WrittenContentReadsBack | Sources/gTasks-RemindersSync/Services/RemindersService.swift:94-185 | a task written by create or update reads back with its title, notes, due date and completion |
| Reminders.RemindersService.constructor | Sources/gTasks-RemindersSync/Services/RemindersService.swift:9-11 | a new service has no list chosen |
| Reminders.RemindersService.SetupFails | Sources/gTasks-RemindersSync/Services/RemindersService.swift:31-53 | `setup()` throws exactly when no calendar is titled "GTasks" and saving the new one fails |
| Reminders.RemindersService.Setup | Sources/gTasks-RemindersSync/Services/RemindersService.swift:31-53 | keeps the first calendar titled "GTasks", or saves a new one and keeps it; fails exactly when there is none and the save throws, changing nothing; on success the kept calendar is the first with that title |
| Reminders.RemindersService.FetchReminders | Sources/gTasks-RemindersSync/Services/RemindersService.swift:55-85 | throws "Reminders list not found" exactly when no list is chosen; otherwise the list's reminders as tasks, or none when the store hands back nil |
| Reminders.RemindersService.FetchReminder | Sources/gTasks-RemindersSync/Services/RemindersService.swift:199-217 | throws exactly when no list is chosen; otherwise a reminder of the list with that identifier, or nil only when the store hands back nil or the list holds no such reminder |
| Reminders.RemindersService.CreateReminder | Sources/gTasks-RemindersSync/Services/RemindersService.swift:87-154 | throws "Reminders list not found" without a list; a failed save stores nothing; after a save the reminder stays stored even when the commit throws; on success the task it returns is the saved reminder; every call is appended to the service's log with its outcome |
| Reminders.RemindersService.UpdateReminder | Sources/gTasks-RemindersSync/Services/RemindersService.swift:156-185 | "Invalid task source" first, then the lookup's error, then "Reminder not found"; otherwise exactly the found reminder is overwritten (`AfterEdit`), and a failed save changes nothing; every call is appended to the service's log with its outcome |
| Reminders.RemindersService.DeleteReminder | Sources/gTasks-RemindersSync/Services/RemindersService.swift:187-197 | the same guards; otherwise exactly the found reminder is removed (`AfterRemove`), and a failed removal changes nothing; every call is appended to the service's log with its outcome |
| ServiceCalls.CallsSnoc | Sources/gTasks-RemindersSync/Services/SyncManager.swift:121-137 | one more call lands in the log of the service its operation goes to, and in no other |
| ServiceCalls.GoogleCalls | Sources/gTasks-RemindersSync/Services/SyncManager.swift:121-137 | the calls of a run that reach GoogleTasksService (`updateTask`, `deleteTask`), in order, no more than the run has |
| ServiceCalls.RemindersCalls | Sources/gTasks-RemindersSync/Services/SyncManager.swift:106-137 | the calls of a run that reach RemindersService (`createReminder`, `updateReminder`, `deleteReminder`), in order, no more than the run has |
| ServiceCalls.GoogleLogAppend | Sources/gTasks-RemindersSync/Services/SyncManager.swift:124 | a call to `updateTask` or `deleteTask` extends the Google log by exactly that call |
| ServiceCalls.GoogleLogSkip | Sources/gTasks-RemindersSync/Services/SyncManager.swift:126 | a call to RemindersService leaves the Google log as it was |
| ServiceCalls.RemindersLogAppend | Sources/gTasks-RemindersSync/Services/SyncManager.swift:126 | a call to `createReminder`, `updateReminder` or `deleteReminder` extends the Reminders log by exactly that call |
| ServiceCalls.RemindersLogSkip | Sources/gTasks-RemindersSync/Services/SyncManager.swift:124 | a call to GoogleTasksService leaves the Reminders log as it was |
| ServiceCalls.LogsStep | Sources/gTasks-RemindersSync/Services/SyncManager.swift:121-137 | after one more call each log still holds exactly its service's part of the run |
| ServiceCalls.GoogleCallsConcat | Sources/gTasks-RemindersSync/Services/SyncManager.swift:106-137 | the Google calls of two runs in sequence are those of the first followed by those of the second |
| ServiceCalls.RemindersCallsConcat | Sources/gTasks-RemindersSync/Services/SyncManager.swift:106-137 | the Reminders calls of two runs in sequence are those of the first followed by those of the second |
| ServiceCalls.GoogleLogsOfParts | Sources/gTasks-RemindersSync/Services/SyncManager.swift:106-137 | a Google log that received one run and then the next holds the Google calls of both together |
| ServiceCalls.RemindersLogsOfParts | Sources/gTasks-RemindersSync/Services/SyncManager.swift:106-137 | a Reminders log that received one run and then the next holds the Reminders calls of both together |
| ServiceCalls.CallsSplit | Sources/gTasks-RemindersSync/Services/SyncManager.swift:106-137 | every call of a run reaches exactly one of the two services |
| ServiceCalls.CreationsSkipGoogle | Sources/gTasks-RemindersSync/Services/SyncManager.swift:107-119 | the creation loop sends nothing to GoogleTasksService |
| ServiceCalls.CreationsToReminders | Sources/gTasks-RemindersSync/Services/SyncManager.swift:107-119 | the creation loop sends every one of its calls to RemindersService |
| SyncPlan.Key | Sources/gTasks-RemindersSync/Services/SyncManager.swift:56 | the key is the title, '_' and the id |
| SyncPlan.KeyIgnoresSource | Sources/gTasks-RemindersSync/Services/SyncManager.swift:72-73 | re-sourcing a task keeps its key |
| SyncPlan.Draft | Sources/gTasks-RemindersSync/Services/SyncManager.swift:72-73 | the copy of a Google task queued for creation: the same task with source `.appleReminders(reminderId: "")` |
| SyncPlan.CreateStep | Sources/gTasks-RemindersSync/Services/SyncManager.swift:69-75 | the body of the Google loop for `tasksToCreate`: the draft of the task when no reminder has its key, nothing otherwise |
| SyncPlan.GoogleSideStep | Sources/gTasks-RemindersSync/Services/SyncManager.swift:56-68 | the body of the Google loop for `tasksToUpdate`: the matched reminder with the task's content when the task is strictly newer, nothing otherwise |
| SyncPlan.ReminderSideStep | Sources/gTasks-RemindersSync/Services/SyncManager.swift:81-97 | the body of the Reminders loop: the matched Google task with the reminder's content when the reminder is strictly newer, nothing when it is not newer or when no Google task has its key |
| SyncPlan.KeyIsAmbiguous | Sources/gTasks-RemindersSync/Services/SyncManager.swift:31-39 | for any title, id and middle text of the right shape (title `a`, id `m_i` against title `a_m`, id `i`), two tasks that differ in both title and id share a key |
| SyncPlan.Index | Sources/gTasks-RemindersSync/Services/SyncManager.swift:31-34 | each dictionary entry is a task of the list, stored under its own key |
| SyncPlan.IndexHasKey | Sources/gTasks-RemindersSync/Services/SyncManager.swift:31-34 | a key is present iff some task has it |
| SyncPlan.IndexLastWins | Sources/gTasks-RemindersSync/Services/SyncManager.swift:31-34 | the entry for a key is the last task with that key |
| SyncPlan.GroupByTitle | Sources/gTasks-RemindersSync/Services/SyncManager.swift:42-44 | the title grouping: each task appended, in fetch order, to the group of its title |
| SyncPlan.GroupByTitleIsFilter | Sources/gTasks-RemindersSync/Services/SyncManager.swift:42-44 | a title is grouped iff some task has it, and its group is exactly the tasks with that title, in order |
| SyncPlan.ToCreate | Sources/gTasks-RemindersSync/Services/SyncManager.swift:54-76 | `tasksToCreate`: the draft of each Google task whose key no reminder has, in fetch order |
| SyncPlan.GoogleSideUpdates | Sources/gTasks-RemindersSync/Services/SyncManager.swift:54-68 | the updates the Google loop queues: for each Google task strictly newer than its matched reminder, that reminder with the Google content, in fetch order |
| SyncPlan.ReminderSideUpdates | Sources/gTasks-RemindersSync/Services/SyncManager.swift:78-98 | the updates the Reminders loop queues: for each reminder strictly newer than its matched Google task, that task with the reminder's content, in fetch order; unmatched reminders add nothing |
| SyncPlan.Planned | Sources/gTasks-RemindersSync/Services/SyncManager.swift:46-98 | the plan of `sync()`: `tasksToCreate`, the Google-side updates followed by the Reminders-side updates, and an empty `tasksToDelete` |
| SyncPlan.ToCreateConcat | Sources/gTasks-RemindersSync/Services/SyncManager.swift:54-76 | every Google task contributes its own step to `tasksToCreate`, once and in order |
| SyncPlan.GoogleSideConcat | Sources/gTasks-RemindersSync/Services/SyncManager.swift:54-68 | every Google task contributes its own step to `tasksToUpdate`, once and in order |
| SyncPlan.ReminderSideConcat | Sources/gTasks-RemindersSync/Services/SyncManager.swift:79-98 | every reminder contributes its own step to `tasksToUpdate`, once and in order |
| SyncPlan.ToCreateMembers | Sources/gTasks-RemindersSync/Services/SyncManager.swift:69-75 | a task is queued for creation iff it is the draft, with an empty reminderId, of a Google task whose key no reminder has |
| SyncPlan.GoogleSideMembers | Sources/gTasks-RemindersSync/Services/SyncManager.swift:57-68 | a Google-side update exists iff a Google task is strictly newer than its matched reminder, and it is that reminder with Google's content |
| SyncPlan.ReminderSideMembers | Sources/gTasks-RemindersSync/Services/SyncManager.swift:82-93 | a Reminders-side update exists iff a reminder is strictly newer than its matched Google task, and it is that task with the reminder's content |
| SyncPlan.AtMostOneUpdatePerPair | Sources/gTasks-RemindersSync/Services/SyncManager.swift:54-98 | a matched pair yields at most one update: towards the side that is strictly older, and none when both times are equal |
| SyncPlan.UnusedKeyIrrelevant | Sources/gTasks-RemindersSync/Services/SyncManager.swift:54-76 | entries under keys no Google task has do not affect the Google-side plan |
| SyncPlan.UnmatchedReminderIgnored | Sources/gTasks-RemindersSync/Services/SyncManager.swift:94-97 | a reminder whose key no Google task has leaves the whole plan unchanged |
| SyncPlan.NothingMatchedPlan | Sources/gTasks-RemindersSync/Services/SyncManager.swift:46-98 | with no key in common, every Google task is queued for creation and nothing for update |
| SyncPlan.NoMatchCreatesAll | Sources/gTasks-RemindersSync/Services/SyncManager.swift:69-75 | with no match, `tasksToCreate` is the drafts of all Google tasks, in order |
| SyncPlan.NoMatchNoGoogleUpdates | Sources/gTasks-RemindersSync/Services/SyncManager.swift:57-68 | with no match, the Google loop queues no update |
| SyncPlan.NoMatchNoReminderUpdates | Sources/gTasks-RemindersSync/Services/SyncManager.swift:82-93 | with no match, the Reminders loop queues no update |
| SyncPlan.NoNewerReminderNoUpdates | Sources/gTasks-RemindersSync/Services/SyncManager.swift:78-98 | when no reminder is strictly newer than the Google task its key matches, the Reminders loop queues no update |
| SyncPlan.UpdateOp | Sources/gTasks-RemindersSync/Services/SyncManager.swift:121-128 | an update goes to `updateTask` iff its source is Google Tasks and to `updateReminder` iff it is Reminders |
| SyncPlan.DeleteOp | Sources/gTasks-RemindersSync/Services/SyncManager.swift:130-137 | a delete goes to `deleteTask` iff its source is Google Tasks and to `deleteReminder` iff it is Reminders |
| SyncPlan.CreationOps | Sources/gTasks-RemindersSync/Services/SyncManager.swift:107-119 | one `createReminder` per fetched Google task, each with the task re-sourced to Reminders |
| SyncPlan.UpdateOps | Sources/gTasks-RemindersSync/Services/SyncManager.swift:121-128 | one dispatched update per queued update, in order |
| SyncPlan.DeleteOps | Sources/gTasks-RemindersSync/Services/SyncManager.swift:130-137 | one dispatched delete per queued delete, in order |
| SyncPlan.FailFastThen | Sources/gTasks-RemindersSync/Services/SyncManager.swift:106-137 | a loop that completed, followed by the next loop, is one fail-fast run of both |
| SyncPlan.FailFastStops | Sources/gTasks-RemindersSync/Services/SyncManager.swift:106-137 | a loop that threw ends the run; no later call is issued |
| SyncPlan.FailFastStep | Sources/gTasks-RemindersSync/Services/SyncManager.swift:106-137 | a run whose calls all returned, extended by the next call of the schedule, is a failed run when that call threw and still an all-returned run when it returned |
| SyncPlan.FailFastAll | Sources/gTasks-RemindersSync/Services/SyncManager.swift:106-137 | a run that issued every call of the schedule and saw each return is a successful run |
| SyncPlan.NoDeleteIssued | Sources/gTasks-RemindersSync/Services/SyncManager.swift:49 | `tasksToDelete` is always empty, so no call of the schedule is a delete |
| SyncPlan.MatchedTaskStillCreated | Sources/gTasks-RemindersSync/Services/SyncManager.swift:107-119 | a Google task that matched a reminder is absent from `tasksToCreate` but still sent to `createReminder` |
| SyncPlan.UpdatesRouted | Sources/gTasks-RemindersSync/Services/SyncManager.swift:121-128 | with snapshots as the services return them, Google-side updates go to Reminders and Reminders-side updates go to Google Tasks |
| SyncPlan.Schedule | Sources/gTasks-RemindersSync/Services/SyncManager.swift:106-137 | the calls of the apply phase in order: `createReminder` for every fetched Google task (not only `tasksToCreate`), then each update, then each delete, each to the service its source names |
| SyncPlan.FailFast | Sources/gTasks-RemindersSync/Services/SyncManager.swift:106-137 | a run that stops at the first thrown error: the calls issued are a prefix of the schedule, all but the last returned, the last threw when the run failed, and a successful run issued every call and saw each return |
| SyncManager.BuildIndex | Sources/gTasks-RemindersSync/Services/SyncManager.swift:31-39 | the `reduce(into:)` loop builds exactly the dictionary `Index` |
| SyncManager.GroupTasksByTitle | Sources/gTasks-RemindersSync/Services/SyncManager.swift:42-44 | the `reduce(into:)` loop builds exactly the grouping `GroupByTitle` |
| SyncManager.PlanGoogleSide | Sources/gTasks-RemindersSync/Services/SyncManager.swift:53-76 | the loop over the Google tasks builds exactly `ToCreate` and the Google-side updates |
| SyncManager.PlanReminderSide | Sources/gTasks-RemindersSync/Services/SyncManager.swift:78-98 | the loop over the reminders builds exactly the Reminders-side updates |
| SyncManager.PlanChanges | Sources/gTasks-RemindersSync/Services/SyncManager.swift:46-98 | the two analysis loops build exactly `ToCreate`, the Google-side updates followed by the Reminders-side updates, and an empty delete list |
| SyncManager.Analyse | Sources/gTasks-RemindersSync/Services/SyncManager.swift:30-98 | the analysis phase of `sync()` on two snapshots builds exactly the plan `Planned` of them |
| SyncManager.Created | Sources/gTasks-RemindersSync/Services/SyncManager.swift:107-119 | the reminders the creation loop saves: one per task, in order, with the task's content and consecutive identifiers |
| SyncManager.CreatedStep | Sources/gTasks-RemindersSync/Services/SyncManager.swift:107-119 | one more creation appends the next task's reminder with the next identifier |
| SyncManager.UpdateEffect | Sources/gTasks-RemindersSync/Services/SyncManager.swift:121-128 | an update that returned changes only the store of the service its source sends it to, as `AfterUpdate` or `AfterEdit` say, and neither store changes size |
| SyncManager.Updated | Sources/gTasks-RemindersSync/Services/SyncManager.swift:121-128 | the stores after a run of returned updates, applied in order; neither store changes size |
| SyncManager.DeleteEffect | Sources/gTasks-RemindersSync/Services/SyncManager.swift:130-137 | a delete that returned changes only the store of the service its source sends it to, as `AfterDelete` or `AfterRemove` say, removing at most one entry |
| SyncManager.Deleted | Sources/gTasks-RemindersSync/Services/SyncManager.swift:130-137 | the stores after a run of returned deletes, applied in order; at most one entry fewer per delete |
| SyncManager.Applied | Sources/gTasks-RemindersSync/Services/SyncManager.swift:106-137 | the stores after a successful apply phase: the created reminders appended, then the updates, then the deletes; with no deletes, Reminders has grown by one reminder per Google task and Google Tasks has kept its size |
| SyncManager.UpdatedKeepsOtherSide | Sources/gTasks-RemindersSync/Services/SyncManager.swift:121-128 | updates that all come from Reminders leave the Google store as it was, and updates that all come from Google Tasks leave the Reminders store as it was |
| SyncManager.GoogleUntouchedWithoutReminderUpdates | Sources/gTasks-RemindersSync/Services/SyncManager.swift:78-128 | with snapshots as the services return them and no Reminders-side update planned, a successful sync leaves the Google store exactly as it was |
| SyncManager.GoogleUntouchedUnlessReminderNewer | Sources/gTasks-RemindersSync/Services/SyncManager.swift:54-128 | with snapshots as the services return them and no reminder strictly newer than the Google task its key matches, a successful sync leaves the Google store exactly as it was |
| SyncManager.SyncManager.constructor | Sources/gTasks-RemindersSync/Services/SyncManager.swift:7-10 | the manager holds the two services |
| SyncManager.SyncManager.Setup | Sources/gTasks-RemindersSync/Services/SyncManager.swift:12-19 | Reminders is set up first; if that throws, Google Tasks is untouched and its error is the outcome; otherwise Reminders holds the first calendar titled "GTasks" and the outcome is Google's: its listing error, "No task lists found" for no lists, success when a list titled "🗓️ Reclaim" exists, and otherwise success iff the insert returns; on success each service holds the first list bearing its name |
| SyncManager.SyncManager.ApplyCreations | Sources/gTasks-RemindersSync/Services/SyncManager.swift:106-119 | `createReminder` is called on a draft of each task in order until the first error, and RemindersService logs exactly those calls; on success the store has grown by exactly the `Created` reminders |
| SyncManager.SyncManager.UpdateOne | Sources/gTasks-RemindersSync/Services/SyncManager.swift:122-127 | one update goes to `updateTask` or `updateReminder` by its source: exactly that service logs it, and the stores change by `UpdateEffect` when it returns and not at all when it throws |
| SyncManager.SyncManager.UpdateStep | Sources/gTasks-RemindersSync/Services/SyncManager.swift:121-128 | one turn of the update loop keeps each log equal to its part of the calls issued and the stores equal to the fold of the returned updates |
| SyncManager.SyncManager.ApplyUpdates | Sources/gTasks-RemindersSync/Services/SyncManager.swift:121-128 | the updates are dispatched in order until the first error; each service logs exactly its part of the calls issued; the stores are the fold of the updates that returned, and neither store changes size |
| SyncManager.SyncManager.DeleteOne | Sources/gTasks-RemindersSync/Services/SyncManager.swift:131-136 | one delete goes to `deleteTask` or `deleteReminder` by its source: exactly that service logs it, and the stores change by `DeleteEffect` when it returns and not at all when it throws |
| SyncManager.SyncManager.DeleteStep | Sources/gTasks-RemindersSync/Services/SyncManager.swift:130-137 | one turn of the delete loop keeps each log equal to its part of the calls issued and the stores equal to the fold of the returned deletes |
| SyncManager.SyncManager.ApplyDeletions | Sources/gTasks-RemindersSync/Services/SyncManager.swift:130-137 | the deletes are dispatched in order until the first error; each service logs exactly its part of the calls issued; the stores are the fold of the deletes that returned |
| SyncManager.SyncManager.ApplyChanges | Sources/gTasks-RemindersSync/Services/SyncManager.swift:121-137 | the update loop and then the delete loop are one fail-fast run of updates followed by deletes; each service logs exactly its part of it, and on success the stores are the deletes applied after the updates |
| SyncManager.SyncManager.Apply | Sources/gTasks-RemindersSync/Services/SyncManager.swift:100-137 | the calls issued are a fail-fast run of the schedule (creations, then updates, then deletes); each service logs exactly its part of them; on success the stores are `Applied` to the stores before |
| SyncManager.SyncManager.Sync | Sources/gTasks-RemindersSync/Services/SyncManager.swift:21-138 | a fetch error from either side ends the run before any store call; otherwise the snapshots are the two listings, the calls issued are a fail-fast run of the schedule planned from them, each service logs exactly its part of them, and on success the stores are `Applied` with that plan and Reminders holds one more reminder per fetched Google task |

## Left out

- `GoogleTasksService.init` (OAuth authorisation, reading the code from standard input, archiving the token): interactive I/O and a foreign OAuth library. The constructor starts from an authorised service.
- `RemindersService.requestAccess`: an operating-system permission prompt. The model assumes access was granted.
- `main.swift`, `SimpleServer.swift` and `Package.swift` are not part of this model. They are the command-line entry point, a local HTTP listener and the build manifest.
- `async`/`await` and checked continuations: each awaited call runs to completion before the next, so the model runs them in sequence.
- `print` output is not modelled. It has no effect on state.
- Dates are opaque integers, and ISO 8601 strings are either a parsed date or unparseable text. The model does not capture the formatters: `fetchTasks` reads with fractional seconds, while `createTask`/`updateTask` read their results without them.
- Reminders date components: the truncation to the minute and the `era` component are not modelled. Components are taken to stand for the date they were made from.
- Reminders alarms (`EKAlarm`) are not modelled.
- The "Invalid task created", "Invalid task updated" and "Failed to create task list" branches cannot be reached here. The modelled server always returns an identifier and a title.
- The query options `showCompleted`/`showHidden`: the modelled listing returns every task of the list.
- `TasksUpdate` is modelled as a full replacement of the stored task. That is the semantics of the Tasks API's update.
- Swift `String` equality and the `String` comparisons that work on whole Characters (grapheme clusters) are modelled on Unicode scalars: `==`, `hasPrefix("#")` (Sources/gTasks-RemindersSync/Config/Environment.swift:65), `starts(with: "GOOGLE_TOKEN=")` (Sources/gTasks-RemindersSync/Config/Environment.swift:37) and `split(separator: "=")` (Sources/gTasks-RemindersSync/Config/Environment.swift:69). Where a combining mark follows the '#', the '=' or the end of `GOOGLE_TOKEN=`, Swift sees one Character and the model sees two scalars: Swift does not skip `#\u{20E3}A=b` and does not drop `GOOGLE_TOKEN=\u{301}x`, but the model skips the first and drops the second.
- A failure to read or write `.envlocal` is modelled as the file being absent (`None`). When saving, a write error is not distinguished from a successful write.
- `EKReminder`, `EKCalendar` and the Google objects are values rather than shared references. A reminder edited in memory and then not saved is therefore simply not stored.
- Task.needsSync is never set to true by the code; the model keeps it false and does not track it.
- SyncManager.SyncManager.Apply: after a thrown call it states which calls were issued and what each service logged, but not the stores' contents, because the failed call's effect depends on which loop it was in. `ApplyUpdates` and `ApplyDeletions` state the stores after their own failures.
- SyncManager.SyncManager.Sync: after a thrown call in the apply phase it states the calls and the logs only, as `Apply` does.
- Paging: the `tasklists.list` query at Sources/gTasks-RemindersSync/Services/GoogleTasksService.swift:117 and the `tasks.list` query at Sources/gTasks-RemindersSync/Services/GoogleTasksService.swift:169 read only the first page of the response, since the code never follows `nextPageToken`. The modelled server returns every list and every task in one response, so the model does not capture tasks beyond the first page being missed.
- Empty `items`: the Tasks API is taken to leave `items` out of a response that has none. `ListResponse` gives no `items` for a list without tasks, and `Setup` reads an account without task lists as a response without `items`, so it throws "No task lists found" (Sources/gTasks-RemindersSync/Services/GoogleTasksService.swift:126-130). A server that sent an empty `items` array for lists would instead reach the branch that creates the list.
- GoogleTasks.OutgoingRoundTrip: reads `due` back unchanged. The Tasks API keeps only the date part of `due` and drops the time of day, and dates are opaque here, so that truncation is not modelled.
