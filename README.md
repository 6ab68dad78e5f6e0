# Study app data layer, modelled in Dafny

This project models the data layer of a desktop study timer and task list.
It has three parts.

- The local JSON document store (`LocalStorage`). It keeps three file
  areas: active documents in `data/`, timestamped backups in
  `data/backups/` and exports in `data/exports/`. Before it overwrites a
  document, it copies the old content to a backup named after the current
  second. It then prunes that document's backups to the newest ten by
  modification time. It can also bundle named documents, plus a
  `_metadata` record, into one export file, and read such a file back. It
  can restore a document from a backup.
- The in-memory manager (`DataManager`). It holds the task list and the
  study-session list. It saves a list after every change, loads the lists
  from `tasks.json` and `sessions.json`, answers filter and sum queries,
  and exports and imports the whole store.
- The small model classes beside them: the countdown state of
  `TimerService`, `StudySession` with its derived duration and texts,
  `SessionConfiguration` with its clamping setters, the lookup tables of
  `SessionType` and `TaskType`, and `Task`.

The disk is a value, `StorageSpec.Disk`. It holds one flag per directory,
a `writable` flag and three maps from file names to contents. Each store
operation has a specification over `Disk` in `StorageSpec`. The class
`Storage.LocalStorage` carries the same state in fields and implements
each operation step by step, proved against that specification. The
`DataManager` class keeps its two lists as sequence fields over a
`LocalStorage`. Its loops (load, import, building the arrays) are
`while`/`for` loops proved against the record functions in `Records`.
JSON is an abstract datatype. The org.json printer and parser and
`LocalDateTime`'s text format sit behind a `Codec` with round-trip laws.
Clock readings (`ts` for the backup or export timestamp text, `now` for
the modification time, `isoNow` for the export date) and generated
identifiers are parameters.

Where the code does not do what its own comments say ("legacy format",
`src/main/java/services/DataManager.java:49` and `:106`; "Create backup of
current file before restoring", `src/main/java/services/LocalStorage.java:231`),
or does not do what a reader of it would expect, the model follows the code:

- A second backup in the same second does not overwrite the first. The
  copy fails because it does not replace an existing file, so no backup is
  added and pruning is skipped (`StorageProperties.SameSecondWriteSkipsBackup`).
- The legacy bare-array document is not accepted. `readJsonFile` reads a
  bare array as the empty object, and the fallback parses an object's own
  text as an array, which always throws. So the list stays as it was
  (`RecordProperties.LegacyFallbackDead`, `RecordProperties.LegacyArrayFileIgnored`).
- A restore does not always keep the pre-restore state and succeed. The
  pruning after its own snapshot can delete the backup being restored,
  and then the copy fails (`StorageProperties.RestoreCanDeleteItsSource`).
- `exportAllData` can throw. A session without an end time makes
  `getEndTime().toString()` throw before anything is written
  (`DataManagement.ExportedData`).

## Model

| member | source | states |
|---|---|---|
| JavaInt.Wrap32 | src/main/java/models/StudySession.java:57 | narrowing to `int` agrees with the value modulo 2^32 and keeps every value in `int` range |
| JavaInt.Quot | src/main/java/services/TimerService.java:86 | Java `/` by a positive divisor rounds toward zero: the quotient has the dividend's sign |
| JavaInt.Rem | src/main/java/services/TimerService.java:87 | Java `%`: quotient times divisor plus remainder is the dividend, and the remainder has the dividend's sign and is smaller than the divisor |
| Json.GetString | src/main/java/services/DataManager.java:60 | `getString` succeeds exactly on a string member and returns its text |
| Json.GetBoolean | src/main/java/services/DataManager.java:63 | `getBoolean` reads a boolean member, reads a string as true or false exactly when it is that word ignoring case as Java folds it, and fails on a missing member, other strings and every other kind of value |
| Json.GetBooleanExamples | src/main/java/services/DataManager.java:63 | "fal\u017Fe" (long s) reads as false and "TRUE" as true; "yes" and null make `getBoolean` fail |
| Json.OptBoolean | src/main/java/services/DataManager.java:67 | `optBoolean` returns a boolean member, and the default for a missing one |
| Json.OptInt | src/main/java/services/DataManager.java:68 | `optInt` returns an in-range integer member, and the default for a missing or non-number one |
| Json.OptString | src/main/java/services/DataManager.java:62 | `optString` returns a string member, and the default for a missing or null one |
| Json.ArrayMember | src/main/java/services/DataManager.java:47 | `optJSONArray` is present exactly when the member is an array, and is that array |
| StorageSpec.EnsureDirs | src/main/java/services/LocalStorage.java:29-37 | creating the directories keeps the disk valid, creates all three on a writable disk, and leaves every file as it was |
| StorageSpec.WrittenString | src/main/java/services/LocalStorage.java:84-92 | a plain string write never touches the backups |
| StorageSpec.Cleared | src/main/java/services/LocalStorage.java:247-260 | clearing a writable disk leaves no `*.json` active file, keeps every other active file unchanged, and keeps backups and exports |
| StorageSpec.Bundle | src/main/java/services/LocalStorage.java:149-158 | the export object holds every document under its name plus `_metadata` = {exportDate, version "1.0"}, which wins over a document of that name |
| StorageSpec.Unbundle | src/main/java/services/LocalStorage.java:178-183 | import succeeds exactly when every member other than `_metadata` is an object, and returns exactly those keys |
| StorageSpec.JsonNameParts | src/main/java/services/LocalStorage.java:101 | for `base.json`, the backup name is `base_<ts>.json`, the prefix is `base`, and the backup is selected by its own prefix |
| StorageSpec.PrefixOverlap | src/main/java/services/LocalStorage.java:119-121 | the prefix filter over-matches: backups of a longer name that starts with `base` are counted and pruned as backups of `base.json` |
| StorageProperties.OldestExists | src/main/java/services/LocalStorage.java:125-127 | every non-empty set of backups has a member no newer than any other, the first element of the sorted array |
| StorageProperties.PruneRetains | src/main/java/services/LocalStorage.java:123-132 | pruning only deletes matching backups; exactly min(count, 10) remain and count - 10 are deleted when over the bound |
| StorageProperties.NewestSurvives | src/main/java/services/LocalStorage.java:123-132 | a strictly newest matching backup is never pruned |
| StorageProperties.StrictlyOldestDeleted | src/main/java/services/LocalStorage.java:123-132 | over the bound, a strictly oldest matching backup is always deleted |
| StorageProperties.ReadAfterWrite | src/main/java/services/LocalStorage.java:65-79 | on a writable disk, reading a document after writing an object returns that object |
| StorageProperties.WriteKeepsOthers | src/main/java/services/LocalStorage.java:65-79 | a write changes no other active file and no export |
| StorageProperties.NewFileGetsNoBackup | src/main/java/services/LocalStorage.java:71-75 | writing a document that does not exist yet makes no backup and then stores the text |
| StorageProperties.BackupBeforeOverwrite | src/main/java/services/LocalStorage.java:65-111 | overwriting an existing document first adds a backup holding its old content with the current time, which survives pruning, then stores the new text |
| StorageProperties.SameSecondWriteSkipsBackup | src/main/java/services/LocalStorage.java:100-110 | when this second's backup name exists, the copy fails: no backup is added, none is pruned, and the write still happens |
| StorageProperties.WriteStringMakesNoBackup | src/main/java/services/LocalStorage.java:84-92 | `writeStringToFile` stores the text and never makes a backup |
| StorageProperties.RetentionBound | src/main/java/services/LocalStorage.java:116-133 | a write keeps at most 10 backups for its document name when there were at most 10 before |
| StorageProperties.OtherPrefixesGainAtMostOne | src/main/java/services/LocalStorage.java:97-133 | a write adds at most its own new backup to the backups any prefix selects |
| StorageProperties.TwoWrites | src/main/java/services/LocalStorage.java:65-111 | writing c1 then c2 in different seconds leaves a backup of c1 from the second write, and c2 as the document |
| StorageProperties.RestoreMissingBackup | src/main/java/services/LocalStorage.java:227-229 | restoring from an absent backup returns false and changes nothing |
| StorageProperties.RestoreSafety | src/main/java/services/LocalStorage.java:222-242 | a restore over an existing document first backs it up; it succeeds exactly when the chosen backup survived pruning, and then the document holds the backup's content |
| StorageProperties.RestoreCanDeleteItsSource | src/main/java/services/LocalStorage.java:222-242 | when the snapshot's pruning finds the chosen backup strictly oldest, it deletes it, the restore returns false and the document is unchanged |
| StorageProperties.UnbundleBundle | src/main/java/services/LocalStorage.java:142-190 | unbundling an export object gives back every document except one named `_metadata` |
| StorageProperties.ExportImportRoundTrip | src/main/java/services/LocalStorage.java:142-190 | on a writable disk, the export is named `export_<ts>.json`, and importing it returns exactly the exported documents when none is named `_metadata` |
| StorageProperties.ExportFailure | src/main/java/services/LocalStorage.java:160-165 | an export that cannot be written returns no path and changes nothing |
| StorageProperties.ExportIsListed | src/main/java/services/LocalStorage.java:195-202 | a successful export is among the listed export files |
| Storage.LocalStorage.EnsureDirectoriesExist | src/main/java/services/LocalStorage.java:29-37 | the new disk is the directory-creation step applied to the old one |
| Storage.LocalStorage.ReadJsonFile | src/main/java/services/LocalStorage.java:42-60 | never fails: the parsed object, or the empty object for a missing, blank or unparsable file or a non-object |
| Storage.LocalStorage.WriteJsonFile | src/main/java/services/LocalStorage.java:65-79 | makes the directories, snapshots an existing file, then overwrites it with the printed object |
| Storage.LocalStorage.WriteStringToFile | src/main/java/services/LocalStorage.java:84-92 | makes the directories and writes the text, with no backup |
| Storage.LocalStorage.CreateBackup | src/main/java/services/LocalStorage.java:97-111 | a successful copy to `name_<ts>.json` is followed by pruning; a failed copy leaves the backups as they were |
| Storage.LocalStorage.CleanOldBackups | src/main/java/services/LocalStorage.java:116-137 | deletes oldest-first until 10 matching backups remain; nothing else changes |
| Storage.LocalStorage.ExportData | src/main/java/services/LocalStorage.java:142-166 | the new disk and result are those of the export specification: the bundle is written under `export_<ts>.json` and its name returned, or none on failure |
| Storage.LocalStorage.ImportData | src/main/java/services/LocalStorage.java:171-190 | returns the members other than `_metadata`, or none for a missing file, unparsable text or a non-object member |
| Storage.LocalStorage.GetExportFiles | src/main/java/services/LocalStorage.java:195-202 | the `*.json` files of the export area, none when it does not exist |
| Storage.LocalStorage.GetBackupFiles | src/main/java/services/LocalStorage.java:207-217 | exactly the backups the pruning filter selects for the name |
| Storage.LocalStorage.RestoreFromBackup | src/main/java/services/LocalStorage.java:222-242 | follows the restore specification: absent backup → false and no change; else snapshot, then copy if the backup still exists |
| Storage.LocalStorage.ClearAllData | src/main/java/services/LocalStorage.java:247-260 | the new disk is the old one without its active `*.json` files |
| Storage.LocalStorage.GetStorageStats | src/main/java/services/LocalStorage.java:265-298 | counts the active `*.json` files, the backups and the exports, 0 for a missing directory |
| SessionTypes.FullLabel | src/main/java/models/SessionType.java:29-31 | the icon, a space, then the display name |
| SessionTypes.ValueOf | src/main/java/services/DataManager.java:124-129 | `valueOf` accepts exactly "WORK" and "STUDY", and returns the type of that name |
| SessionTypes.ValueOfName | src/main/java/services/DataManager.java:151-153 | a stored type name reads back as the same type |
| SessionTypes.DefaultWorkDuration | src/main/java/models/SessionType.java:34-43 | each type's default work period lies in the 1..180 minutes a configuration accepts |
| SessionTypes.DefaultBreakDuration | src/main/java/models/SessionType.java:45-54 | each type's default break lies in 1..60 minutes and is shorter than its default work period |
| SessionTypes.DefaultDurations | src/main/java/models/SessionType.java:34-54 | WORK defaults to 25 minutes of work and 5 of break, STUDY to 45 and 10 |
| SessionTypes.SessionCompleteMessage | src/main/java/models/SessionType.java:56-65 | the completion message starts with the type's display name and " session complete! " |
| SessionTypes.BreakCompleteMessage | src/main/java/models/SessionType.java:67-76 | the break message starts with "Break complete! Ready " and ends in a question mark |
| SessionTypes.MessagesPerType | src/main/java/models/SessionType.java:56-76 | each type has its own completion message and its own break message, and no completion message is a break message |
| TaskTypes.FullLabel | src/main/java/models/TaskType.java:29-31 | the icon, a space, then the display name |
| TaskTypes.ListTitle | src/main/java/models/TaskType.java:44-46 | the display name followed by " Tasks" |
| TaskTypes.TaskPrompt | src/main/java/models/TaskType.java:33-42 | the prompt is "Add ", the display name in lower case, then " task..." |
| TaskTypes.ColorCode | src/main/java/models/TaskType.java:48-57 | the main colour is a `#RRGGBB` code |
| TaskTypes.LightColorCode | src/main/java/models/TaskType.java:59-68 | the light colour is a `#RRGGBB` code brighter than the type's main colour in each of red, green and blue |
| TaskTypes.ListTitles | src/main/java/models/TaskType.java:44-46 | the titles are "Work Tasks" and "Study Tasks" |
| TaskTypes.TablesDistinguishTypes | src/main/java/models/TaskType.java:33-68 | prompts, titles, main colours and light colours each tell the two types apart, and no main colour is a light colour |
| SessionConfigurations.Clamp | src/main/java/models/SessionConfiguration.java:32-34 | the result lies in [1, hi], equals an in-range input, and is the nearer bound otherwise |
| SessionConfigurations.ClampIdempotent | src/main/java/models/SessionConfiguration.java:32-34 | clamping twice is clamping once |
| SessionConfigurations.DefaultsInRange | src/main/java/models/SessionConfiguration.java:11-18 | every type's default durations lie in the setters' ranges |
| SessionConfigurations.SessionConfiguration.constructor | src/main/java/models/SessionConfiguration.java:11-18 | the type's default durations, both automatic starts on, project name "" |
| SessionConfigurations.SessionConfiguration.SetSessionType | src/main/java/models/SessionConfiguration.java:24-26 | changes the type only; the durations stay |
| SessionConfigurations.SessionConfiguration.SetWorkDurationMinutes | src/main/java/models/SessionConfiguration.java:32-34 | stores the value clamped to 1..180, an in-range value unchanged, and nothing else changes |
| SessionConfigurations.SessionConfiguration.SetBreakDurationMinutes | src/main/java/models/SessionConfiguration.java:40-42 | stores the value clamped to 1..60, an in-range value unchanged, and nothing else changes |
| SessionConfigurations.SessionConfiguration.SetAutoStartBreaks | src/main/java/models/SessionConfiguration.java:48-50 | sets that flag only |
| SessionConfigurations.SessionConfiguration.SetAutoStartWork | src/main/java/models/SessionConfiguration.java:56-58 | sets that flag only |
| SessionConfigurations.SessionConfiguration.SetDefaultProjectName | src/main/java/models/SessionConfiguration.java:64-66 | sets the project name only |
| SessionConfigurations.SessionConfiguration.ResetToDefaults | src/main/java/models/SessionConfiguration.java:68-73 | the current type's durations and both automatic starts on; type and project name stay |
| Timer.Pad2 | src/main/java/services/TimerService.java:88 | `%02d` is at least two characters, all digits for a non-negative number |
| Timer.Pad2ReadsBack | src/main/java/services/TimerService.java:88 | a `%02d` field reads back as the number printed |
| Timer.FormatTime | src/main/java/services/TimerService.java:85-89 | the display is at least five characters; a non-negative time shows as digits with the colon third from the end |
| Timer.FormatTimeReadsBack | src/main/java/services/TimerService.java:85-89 | for a non-negative time, the digits before the colon read back as the whole minutes and the last two digits as the remaining seconds (0–59) |
| Timer.PeriodDisplays | src/main/java/services/TimerService.java:85-89 | the work period shows "25:00" and the break "05:00" |
| Timer.TimerService.constructor | src/main/java/services/TimerService.java:10-16 | 1500 seconds remaining, not running, work mode |
| Timer.TimerService.Start | src/main/java/services/TimerService.java:28-36 | leaves the countdown running; only a start from rest records the start time; time and mode stay |
| Timer.TimerService.Pause | src/main/java/services/TimerService.java:38-43 | stops, keeping the remaining time and the mode |
| Timer.TimerService.Reset | src/main/java/services/TimerService.java:45-49 | stops, keeps the mode, and refills 25 or 5 minutes by mode |
| Timer.TimerService.SwitchToBreak | src/main/java/services/TimerService.java:51-55 | stopped, break mode, 300 seconds |
| Timer.TimerService.SwitchToWork | src/main/java/services/TimerService.java:57-61 | stopped, work mode, 1500 seconds |
| Timer.TimerService.WorkDurationMinutes | src/main/java/services/TimerService.java:91-93 | the work getter is the minute count of the full work period |
| Timer.TimerService.BreakDurationMinutes | src/main/java/services/TimerService.java:95-97 | the break getter is the minute count of the full break |
| Timer.StartTwice | src/main/java/services/TimerService.java:28-36 | a second start changes nothing the first one set |
| Timer.SwitchTwice | src/main/java/services/TimerService.java:51-61 | switching into a mode twice is switching once |
| Tasks.TaskText | src/main/java/models/Task.java:68-71 | the printed title, followed by " ✓" exactly when completed |
| Tasks.TaskTextParts | src/main/java/models/Task.java:68-71 | an unfinished task's text is its title, and finishing only appends the tick |
| Tasks.Task.constructor | src/main/java/models/Task.java:12-16 | the given identifier and creation time, not completed, no title or description |
| Tasks.Task.WithText | src/main/java/models/Task.java:18-22 | as above, with both texts stored |
| Tasks.Task.SetTitle | src/main/java/models/Task.java:32-34 | changes the title only |
| Tasks.Task.SetDescription | src/main/java/models/Task.java:40-42 | changes the description only |
| Tasks.Task.SetCompleted | src/main/java/models/Task.java:48-50 | changes the flag only |
| Tasks.Task.SetId | src/main/java/models/Task.java:56-58 | changes the identifier only |
| Tasks.Task.SetCreatedAt | src/main/java/models/Task.java:60-62 | changes the creation time only |
| Tasks.Task.ToggleCompleted | src/main/java/models/Task.java:64-66 | flips the flag and nothing else |
| Tasks.Task.ToString | src/main/java/models/Task.java:68-71 | the title, then " ✓" exactly when completed |
| Tasks.ToggleTwice | src/main/java/models/Task.java:64-66 | toggling twice restores the task and its text |
| StudySessions.MinutesBetween | src/main/java/models/StudySession.java:55-58 | whole minutes between start and end, rounded toward zero, when they fit in an `int` |
| StudySessions.MinutesBetweenWhole | src/main/java/models/StudySession.java:19-24 | ending d minutes after the start derives a duration of d |
| StudySessions.DurationFormatted | src/main/java/models/StudySession.java:89-98 | the text ends in "m"; a non-negative duration's text reads back as that duration (with at most 59 minutes after the hours) and shows hours exactly when the duration is an hour or more, so the numbers shown are the whole hours and the leftover minutes |
| StudySessions.HoursMinutesTextReads | src/main/java/models/StudySession.java:89-98 | the text of `d / 60` hours and `d % 60` minutes reads back as `d` and shows an `h` exactly when `d` is an hour or more |
| StudySessions.NegativeDurationLosesHours | src/main/java/models/StudySession.java:89-98 | -90 minutes prints as "-30m", which no longer reads as -90 |
| StudySessions.DurationExamples | src/main/java/models/StudySession.java:89-98 | 90 minutes prints as "1h 30m", 45 as "45m" |
| StudySessions.SessionText | src/main/java/models/StudySession.java:100-106 | exactly the date, " - ", the subject or "Study Session", " (", the duration text and ")", pinned by prefix, suffix and length |
| StudySessions.StudySession.constructor | src/main/java/models/StudySession.java:14-17 | starts now with no end, duration 0, no subject or notes |
| StudySessions.StudySession.WithDuration | src/main/java/models/StudySession.java:19-24 | ends d minutes after the start, so the derived duration equals the stored one |
| StudySessions.StudySession.Between | src/main/java/models/StudySession.java:26-33 | stores both times and derives the duration from them |
| StudySessions.StudySession.SetEndTime | src/main/java/models/StudySession.java:55-58 | sets the end and re-derives the duration from the current start |
| StudySessions.StudySession.SetStartTime | src/main/java/models/StudySession.java:43-45 | moves the start only; the duration is not re-derived |
| StudySessions.StudySession.SetDurationMinutes | src/main/java/models/StudySession.java:64-66 | overrides the duration only |
| StudySessions.StudySession.SetId | src/main/java/models/StudySession.java:47-49 | changes the identifier only |
| StudySessions.StudySession.SetSubject | src/main/java/models/StudySession.java:72-74 | changes the subject only |
| StudySessions.StudySession.SetNotes | src/main/java/models/StudySession.java:80-82 | changes the notes only |
| StudySessions.StudySession.DurationText | src/main/java/models/StudySession.java:89-98 | a non-negative duration's text reads back as the duration and shows hours exactly when it is an hour or more |
| StudySessions.StudySession.ToString | src/main/java/models/StudySession.java:100-106 | exactly the date, " - ", the subject or "Study Session", then the duration text in parentheses, pinned by prefix, suffix and length |
| Records.EncodeTask | src/main/java/services/DataManager.java:81-91 | the saved task object has the six fixed keys, plus title and description only when they are not null |
| Records.EncodeTasks | src/main/java/services/DataManager.java:79-94 | one saved object per task, in list order |
| Records.EncodeSession | src/main/java/services/DataManager.java:143-156 | an ended session is saved with id, start and end, and without its duration |
| Records.EncodeSessions | src/main/java/services/DataManager.java:141-159 | the session array exists exactly when every session has ended, and holds one object per session in order |
| Records.DecodeTask | src/main/java/services/DataManager.java:58-70 | a task is read only from an object with an id and a title |
| Records.DecodeSession | src/main/java/services/DataManager.java:115-133 | a read session has ended, its duration is derived from start and end, and its type, subject and notes are set |
| Records.DecodeWhile | src/main/java/services/DataManager.java:56-72 | the loaded list is no longer than the array, and each element is what its array element reads as |
| RecordProperties.DecodeWhilePrefix | src/main/java/services/DataManager.java:56-75 | a load whose first unreadable element is at k keeps exactly the first k elements, read |
| RecordProperties.AllDecodeIffComplete | src/main/java/services/DataManager.java:57-72 | the loop finishes exactly when every element reads |
| RecordProperties.FirstFailure | src/main/java/services/DataManager.java:57-72 | given one unreadable element, there is a first one |
| RecordProperties.TaskRoundTrip | src/main/java/services/DataManager.java:44-99 | a titled task comes back from its saved object unchanged, except a null description comes back as "" |
| RecordProperties.NullTitleUnreadable | src/main/java/services/DataManager.java:61 | a task saved with a null title cannot be read back |
| RecordProperties.TasksReadBack | src/main/java/services/DataManager.java:44-99 | a saved task array reads back as the tasks before the first untitled one; the load finishes exactly when there is none |
| RecordProperties.SessionRoundTrip | src/main/java/services/DataManager.java:101-164 | an ended session comes back with its duration re-derived, null texts as "", a null type as WORK, all else unchanged |
| RecordProperties.SessionsReadBack | src/main/java/services/DataManager.java:101-164 | a saved session array reads back completely |
| RecordProperties.UnknownTypeIsWork | src/main/java/services/DataManager.java:124-129 | a stored type name that `valueOf` rejects reads as WORK |
| RecordProperties.LegacyFallbackDead | src/main/java/services/DataManager.java:47-54 | the legacy fallback never yields an array: the list comes only from the member array |
| RecordProperties.LegacyArrayFileIgnored | src/main/java/services/DataManager.java:44-76 | a `tasks.json` holding a bare array leaves the task list unchanged |
| RecordProperties.LoadSavedTasks | src/main/java/services/DataManager.java:44-99 | a `tasks.json` holding the saved document loads as the reloaded tasks before the first untitled one |
| RecordProperties.LoadSavedSessions | src/main/java/services/DataManager.java:101-164 | a `sessions.json` holding the saved document loads as every session, reloaded |
| RecordProperties.MissingTasksFileKeepsList | src/main/java/services/DataManager.java:46-54 | a missing or blank `tasks.json` leaves the task list unchanged |
| Queries.DayOfWeek | src/main/java/services/DataManager.java:208 | the day of the week is 1..7 |
| Queries.WeekStart | src/main/java/services/DataManager.java:208 | the week start is a Monday at most six days before today |
| Queries.TasksWithStatus | src/main/java/services/DataManager.java:221-231 | a filter result is no longer than the list |
| Queries.StatusMembers | src/main/java/services/DataManager.java:221-231 | the filter keeps exactly the tasks with the given completion flag |
| Queries.CompletedTasks | src/main/java/services/DataManager.java:221-225 | holds exactly the completed tasks |
| Queries.ActiveTasks | src/main/java/services/DataManager.java:227-231 | holds exactly the tasks not completed |
| Queries.TasksPartition | src/main/java/services/DataManager.java:221-231 | completed and active tasks split the list: sizes add up, and together they are the list as a multiset |
| Queries.StatusKeepsOrder | src/main/java/services/DataManager.java:221-231 | both queries keep list order: the query of a concatenation is the concatenation of the queries |
| Queries.SessionsForDate | src/main/java/services/DataManager.java:215-219 | holds exactly the sessions starting on the day |
| Queries.SessionsSince | src/main/java/services/DataManager.java:209-212 | holds exactly the sessions starting on or after the week's Monday |
| Queries.TotalStudyTimeToday | src/main/java/services/DataManager.java:198-204 | the `int` sum of today's durations, equal to the true sum modulo 2^32 |
| Queries.TotalStudyTimeThisWeek | src/main/java/services/DataManager.java:206-213 | the `int` sum of the durations since Monday, equal to the true sum modulo 2^32 |
| Queries.SumAppend | src/main/java/services/DataManager.java:200-203 | the sum over a concatenation is the sum of the sums |
| Queries.ForDateAppend | src/main/java/services/DataManager.java:215-219 | the day query of a concatenation is the concatenation of the day queries |
| Queries.AddedSessionToday | src/main/java/services/DataManager.java:198-204 | adding a session adds its duration to a day's sum exactly when it starts that day |
| Queries.TodayWithinWeek | src/main/java/services/DataManager.java:198-213 | every session counted today is counted this week |
| Queries.LaterSessionsCountThisWeek | src/main/java/services/DataManager.java:206-213 | the weekly sum has no upper bound: a session on any later day counts |
| Queries.WeekWithoutFutureSessions | src/main/java/services/DataManager.java:206-213 | with no future sessions, the weekly sum covers only Monday through today |
| DataManagement.RemoveFirst | src/main/java/services/DataManager.java:171-174 | removing a non-member changes nothing; removing a member shortens the list by one |
| DataManagement.ExportedData | src/main/java/services/DataManager.java:239-296 | an export with an unended session changes nothing and returns no path |
| DataManagement.ReadAll | src/main/java/services/DataManager.java:56-72 | the load loop yields the elements read before the first failure, and reports whether it finished |
| DataManagement.DataManager.constructor | src/main/java/services/DataManager.java:27-32 | empty lists over a new store whose directories were created |
| DataManagement.DataManager.LoadTasks | src/main/java/services/DataManager.java:44-76 | the task list becomes what loading `tasks.json` gives; the disk and the sessions are unchanged |
| DataManagement.DataManager.LoadStudySessions | src/main/java/services/DataManager.java:101-138 | the session list becomes what loading `sessions.json` gives; the disk and the tasks are unchanged |
| DataManagement.DataManager.LoadData | src/main/java/services/DataManager.java:34-37 | both lists are loaded from the unchanged disk |
| DataManagement.DataManager.TasksArray | src/main/java/services/DataManager.java:79-94 | the array built is the saved array of the task list |
| DataManagement.DataManager.SessionsArray | src/main/java/services/DataManager.java:141-159 | the array built is the saved array of the session list, none when a session has not ended |
| DataManagement.DataManager.SaveTasks | src/main/java/services/DataManager.java:78-99 | writes the task document to `tasks.json` through the store's write |
| DataManagement.DataManager.SaveStudySessions | src/main/java/services/DataManager.java:140-164 | writes the session document, or throws before writing when a session has not ended |
| DataManagement.DataManager.SaveData | src/main/java/services/DataManager.java:39-42 | writes the tasks, then the sessions |
| DataManagement.DataManager.AddTask | src/main/java/services/DataManager.java:166-169 | appends exactly one task at the end, then saves |
| DataManagement.DataManager.RemoveTask | src/main/java/services/DataManager.java:171-174 | removes the first equal task, then saves |
| DataManagement.DataManager.UpdateTask | src/main/java/services/DataManager.java:176-178 | saves the tasks |
| DataManagement.DataManager.GetTasks | src/main/java/services/DataManager.java:180-182 | returns the list's contents |
| DataManagement.DataManager.AddStudySession | src/main/java/services/DataManager.java:184-187 | appends exactly one session, then saves; the save fails with nothing written when a session has not ended |
| DataManagement.DataManager.RemoveStudySession | src/main/java/services/DataManager.java:189-192 | removes the first equal session, then saves |
| DataManagement.DataManager.GetStudySessions | src/main/java/services/DataManager.java:194-196 | returns the list's contents |
| DataManagement.DataManager.ReadTheme | src/main/java/services/DataManager.java:283-292 | the theme is the parsed `theme.json` object, or empty |
| DataManagement.DataManager.ExportAllData | src/main/java/services/DataManager.java:239-296 | disk and path are those of exporting the task document, session document and theme |
| DataManagement.DataManager.ImportData | src/main/java/services/DataManager.java:303-374 | unreadable bundle → false, nothing changed; a failing list loop → false, that list's prefix kept, nothing written; else theme written, both lists saved |
| DataManagement.DataManager.RestoreFromBackup | src/main/java/services/DataManager.java:393-399 | the store's restore, then both lists reloaded exactly when it succeeded |
| DataManagement.DataManager.ClearAllData | src/main/java/services/DataManager.java:411-415 | both lists empty and the active documents deleted |
| DataManagement.DataManager.GetExportFiles | src/main/java/services/DataManager.java:379-381 | the store's export listing |
| DataManagement.DataManager.GetBackupFiles | src/main/java/services/DataManager.java:386-388 | the store's backup listing for the name |
| DataManagement.DataManager.GetStorageStats | src/main/java/services/DataManager.java:404-406 | the store's counts |
| DataProperties.RemoveFirstSplit | src/main/java/services/DataManager.java:171-174 | removal takes out the first occurrence and keeps the order of the rest |
| DataProperties.RemoveFirstCount | src/main/java/services/DataManager.java:171-174 | removal takes out exactly one copy of a present element |
| DataProperties.RemoveAfterAdd | src/main/java/services/DataManager.java:166-174 | removing a just-added new element gives back the list |
| DataProperties.SaveThenLoadTasks | src/main/java/services/DataManager.java:44-99 | after `saveTasks` on a writable disk, `loadTasks` gives the tasks back, reloaded, up to the first untitled one |
| DataProperties.SaveThenLoadSessions | src/main/java/services/DataManager.java:101-164 | after `saveStudySessions` on a writable disk, `loadStudySessions` gives every session back, reloaded |
| DataProperties.SaveDataThenLoad | src/main/java/services/DataManager.java:34-42 | `saveData` then `loadData` gives both lists back, reloaded; the session write keeps the task file |
| DataProperties.ExportThenImportDocuments | src/main/java/services/DataManager.java:239-308 | importing the file `exportAllData` wrote returns its three documents |
| DataProperties.ImportExportedTasks | src/main/java/services/DataManager.java:310-330 | importing the exported tasks gives them back, reloaded, up to the first untitled one, and finishes exactly when there is none |
| DataProperties.ImportExportedSessions | src/main/java/services/DataManager.java:332-358 | importing the exported sessions gives every one back, reloaded |
| DataProperties.LoadAfterClear | src/main/java/services/DataManager.java:411-415 | after clearing a writable disk, loading keeps the lists as they are |
| DataProperties.BlankThemeIsEmpty | src/main/java/services/DataManager.java:282-293 | a blank `theme.json` exports as an empty theme object, because parsing blank text fails and the failure is caught |
| DataProperties.BlankExportRefused | src/main/java/services/LocalStorage.java:171-190 | a blank export file is refused by the import |

## Left out

- The countdown thread of `TimerService` is not modelled. This covers `runTimer`, `Thread`, `Platform.runLater`, the property listeners, the `timeDisplay` property, the completion callback and `getElapsedMinutes`, which reads the wall clock. Their point is concurrency and the UI thread.
- Real file I/O is abstracted. Paths, byte encodings, `File.lastModified` and `File.length` become map entries with an integer modification time. A disk failure is one `writable` flag: every write, copy and delete fails, and reads succeed. A single failing delete inside a loop is not modelled.
- `exportData` returns an absolute path. The model returns the file's name in the export area. `importData` accepts any path; the model looks the name up in the export area.
- The org.json printer and parser and `LocalDateTime` text are abstract functions with round-trip laws and a law that blank text does not parse (`Json.Lawful`). Pretty-printing and number formats are not modelled.
- Json.OptInt: numeric strings and fractional numbers, which org.json converts, are read as the default.
- `getStorageStats` keeps the three counts only. `totalSizeBytes` and the floating-point `totalSizeKB` text are dropped.
- `getFormattedDate` is not modelled. `StudySession.toString` takes the formatted date as a parameter.
- `SessionConfiguration.toString` and the field getters of the model classes are not modelled. They carry no logic. The enum accessors `DisplayName`, `Icon` and `Description` are modelled as tables without contracts of their own.
- The `default:` branches of the enum switches are left out. They cannot be reached with two constants.
- `Task.java` and `StudySession.java` lack fields that `DataManager` reads and writes (`active`, `totalTimeSpent`, `estimatedTime`, `sessionType`, `projectName`). The manager's lists are therefore modelled as the records it serialises: 8 task fields and 7 session fields, plus the derived duration.
- DataManagement.RemoveFirst: `List.remove` compares by reference, because `Task` and `StudySession` do not override `equals`. The model compares records by value.
- DataManagement.DataManager.UpdateTask: callers change a task object that the list shares. With value records that aliasing is not modelled, so the operation is only the save.
- Null identifiers, null creation times and null start times are not modelled. Their `NullPointerException`s are out of scope. Null titles, descriptions, subjects, notes, types, project names and end times are modelled.
- `saveStudySessions` and `exportAllData` let the `NullPointerException` of an unended session escape to their caller. The model returns `false` or no path instead. `addStudySession` and `removeStudySession` pass it on in the same way, as their `saved` result.
- Each manager operation takes one clock reading. In Java, every backup and export reads the clock again, so two backups in one `saveData` can fall in different seconds.
- StudySessions.MinutesBetween: the whole-minute bounds are stated only when the minute count fits in an `int`. Beyond that the value is the wrapped one, and no more is stated.
- StudySessions.MinutesBetween: times are whole seconds. `LocalDateTime.now()` has sub-second precision and `Duration.toMinutes()` truncates the exact difference, so a session from 10:00:00.6 to 10:01:00.3 lasts 0 minutes in Java but 1 minute from the whole-second readings 10:00:00 and 10:01:00.
- Timer.FormatTimeReadsBack: the read-back is stated for non-negative times only. A negative time prints with minus signs.
- StudySessions.StudySession.DurationText: the read-back is stated for non-negative durations only. `NegativeDurationLosesHours` shows that negative ones can lose their hours.
- The controllers, the application entry point and the storage demo driver are not part of this model.
