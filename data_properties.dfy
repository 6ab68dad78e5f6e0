/** What the manager's operations do when combined: a save read back by a
    load, an export read back by an import, a removal undoing an addition,
    and a load after the documents were cleared. */
module DataProperties {
  import opened Wrappers
  import opened Strings
  import opened Json
  import opened StorageSpec
  import opened Records
  import opened RecordProperties
  import opened StorageProperties
  import opened DataManagement

  // ------------------------------------------------------------- removal

  /** `remove` takes out the first occurrence and keeps the order of the
      rest. */
  lemma {:induction false} RemoveFirstSplit<T>(a: seq<T>, x: T, b: seq<T>)
    requires x !in a
    ensures RemoveFirst(a + [x] + b, x) == a + b
  {
    if a == [] {
      assert a + [x] + b == [x] + b;
    } else {
      var s := a + [x] + b;
      assert s[0] == a[0] && s[1..] == a[1..] + [x] + b;
      RemoveFirstSplit(a[1..], x, b);
      assert a + b == [a[0]] + (a[1..] + b);
    }
  }

  /** `remove` takes out exactly one copy of a present element. */
  lemma {:induction false} RemoveFirstCount<T>(s: seq<T>, x: T)
    requires x in s
    ensures multiset(RemoveFirst(s, x)) == multiset(s) - multiset{x}
  {
    if s[0] == x {
      assert s == [x] + s[1..];
    } else {
      RemoveFirstCount(s[1..], x);
      assert s == [s[0]] + s[1..];
    }
  }

  /** Removing a task that was just added, and was not in the list before,
      gives back the list. */
  lemma RemoveAfterAdd<T>(s: seq<T>, x: T)
    requires x !in s
    ensures RemoveFirst(s + [x], x) == s
  {
    RemoveFirstSplit(s, x, []);
    assert s + [x] + [] == s + [x];
    assert s + [] == s;
  }

  // ------------------------------------------------------------ save, load

  /** After `saveTasks` on a writable disk, `loadTasks` reads the tasks
      back, reloaded, up to the first task without a title. */
  lemma SaveThenLoadTasks(d: Disk, d': Disk, tasks: seq<TaskRecord>, current: seq<TaskRecord>,
                          c: Codec, ts: string, now: int, k: nat)
    requires Lawful(c) && d.writable
    requires WriteStep(d, d', TASKS_FILE, c.render(JObject(TasksDocument(tasks, c))), ts, now)
    requires k <= |tasks|
    requires forall i :: 0 <= i < k ==> tasks[i].title.Some?
    requires k < |tasks| ==> tasks[k].title.None?
    ensures LoadedTasks(d', current, c) == ReloadedTasks(tasks[..k])
  {
    assert d'.active[TASKS_FILE] == c.render(JObject(TasksDocument(tasks, c)));
    LoadSavedTasks(d', tasks, current, c, k);
  }

  /** After `saveStudySessions` on a writable disk, `loadStudySessions`
      reads every session back, reloaded. */
  lemma SaveThenLoadSessions(d: Disk, d': Disk, sessions: seq<SessionRecord>, current: seq<SessionRecord>,
                             c: Codec, ts: string, now: int)
    requires Lawful(c) && d.writable
    requires SessionsDocument(sessions, c).Some?
    requires WriteStep(d, d', SESSIONS_FILE, c.render(JObject(SessionsDocument(sessions, c).value)), ts, now)
    ensures LoadedSessions(d', current, c) == ReloadedSessions(sessions)
  {
    assert d'.active[SESSIONS_FILE] == c.render(JObject(SessionsDocument(sessions, c).value));
    LoadSavedSessions(d', sessions, current, c);
  }

  /** `saveData` followed by `loadData`, on a writable disk, with every
      task titled and every session ended: both lists come back, reloaded;
      the session write leaves the task document in place. */
  lemma SaveDataThenLoad(d: Disk, d': Disk, tasks: seq<TaskRecord>, sessions: seq<SessionRecord>,
                         c: Codec, ts: string, now: int, currentTasks: seq<TaskRecord>,
                         currentSessions: seq<SessionRecord>)
    requires Lawful(c) && d.writable
    requires forall i :: 0 <= i < |tasks| ==> tasks[i].title.Some?
    requires SessionsDocument(sessions, c).Some?
    requires SaveStep(d, d', tasks, sessions, c, ts, now)
    ensures LoadedTasks(d', currentTasks, c) == ReloadedTasks(tasks)
    ensures LoadedSessions(d', currentSessions, c) == ReloadedSessions(sessions)
  {
    var taskText := c.render(JObject(TasksDocument(tasks, c)));
    var mid :| && WriteStep(d, mid, TASKS_FILE, taskText, ts, now)
               && WriteStep(mid, d', SESSIONS_FILE, c.render(JObject(SessionsDocument(sessions, c).value)), ts, now);
    assert mid.writable && mid.active[TASKS_FILE] == taskText;
    assert TASKS_FILE[0] != SESSIONS_FILE[0];
    WriteKeepsOthers(mid, d', SESSIONS_FILE, c.render(JObject(SessionsDocument(sessions, c).value)), ts, now, TASKS_FILE);
    assert tasks[..|tasks|] == tasks;
    LoadSavedTasks(d', tasks, currentTasks, c, |tasks|);
    SaveThenLoadSessions(mid, d', sessions, currentSessions, c, ts, now);
  }

  // ------------------------------------------------------- export, import

  /** The bundle `exportAllData` hands to the store. */
  function ExportBundle(d: Disk, tasks: seq<TaskRecord>, sessions: seq<SessionRecord>, c: Codec): map<string, JsonObject>
    requires SessionsDocument(sessions, c).Some?
  {
    AllDocuments(TasksDocument(tasks, c), SessionsDocument(sessions, c).value, ThemeOf(d, c))
  }

  /** An export on a writable disk is named by its timestamp, and importing
      that file gives back the three documents. */
  lemma ExportThenImportDocuments(d: Disk, tasks: seq<TaskRecord>, sessions: seq<SessionRecord>, c: Codec,
                                  ts: string, isoNow: string)
    requires Lawful(c) && d.writable
    requires SessionsDocument(sessions, c).Some?
    ensures ExportedData(d, tasks, sessions, c, ts, isoNow).1 == Some(ExportName(ts))
    ensures Imported(ExportedData(d, tasks, sessions, c, ts, isoNow).0, ExportName(ts), c)
              == Some(ExportBundle(d, tasks, sessions, c))
  {
    var bundle := ExportBundle(d, tasks, sessions, c);
    assert METADATA_KEY[0] == '_';
    assert METADATA_KEY !in bundle;
    ExportImportRoundTrip(d, bundle, ts, isoNow, c);
  }

  /** Importing the exported documents gives the task list back, reloaded,
      up to the first task without a title; the import loop finishes
      exactly when there is none. */
  lemma ImportExportedTasks(d: Disk, tasks: seq<TaskRecord>, sessions: seq<SessionRecord>, c: Codec, k: nat,
                            current: seq<TaskRecord>)
    requires Lawful(c)
    requires SessionsDocument(sessions, c).Some?
    requires k <= |tasks|
    requires forall i :: 0 <= i < k ==> tasks[i].title.Some?
    requires k < |tasks| ==> tasks[k].title.None?
    ensures ImportedList(ExportBundle(d, tasks, sessions, c), TASKS_KEY, current, TaskDecoder(c))
              == (ReloadedTasks(tasks[..k]), k == |tasks|)
  {
    var bundle := ExportBundle(d, tasks, sessions, c);
    assert TASKS_KEY[0] != SESSIONS_KEY[0] && TASKS_KEY[1] != THEME_KEY[1];
    assert bundle[TASKS_KEY] == TasksDocument(tasks, c);
    TasksReadBack(tasks, c, k);
  }

  /** Importing the exported documents gives every session back, reloaded,
      and the loop finishes. */
  lemma ImportExportedSessions(d: Disk, tasks: seq<TaskRecord>, sessions: seq<SessionRecord>, c: Codec,
                               current: seq<SessionRecord>)
    requires Lawful(c)
    requires SessionsDocument(sessions, c).Some?
    ensures ImportedList(ExportBundle(d, tasks, sessions, c), SESSIONS_KEY, current, SessionDecoder(c))
              == (ReloadedSessions(sessions), true)
  {
    var bundle := ExportBundle(d, tasks, sessions, c);
    assert SESSIONS_KEY[0] != THEME_KEY[0];
    assert bundle[SESSIONS_KEY] == SessionsDocument(sessions, c).value;
    SessionsReadBack(sessions, c);
  }

  // ---------------------------------------------------------------- clear

  /** After `clearAllData` on a writable disk the documents are gone, so a
      later `loadData` keeps the (now empty) lists as they are. */
  lemma LoadAfterClear(d: Disk, c: Codec, currentTasks: seq<TaskRecord>, currentSessions: seq<SessionRecord>)
    requires Lawful(c) && d.writable
    ensures LoadedTasks(Cleared(d), currentTasks, c) == currentTasks
    ensures LoadedSessions(Cleared(d), currentSessions, c) == currentSessions
  {
    assert EndsWith(TASKS_FILE, JSON_EXT) && EndsWith(SESSIONS_FILE, JSON_EXT);
    MissingTasksFileKeepsList(Cleared(d), currentTasks, c);
    LegacyFallbackDead(map[], SESSIONS_KEY, c);
  }

  // ---------------------------------------------------------------- blank files

  /** A blank theme file reads as an empty theme in `exportAllData`:
      org.json throws on blank text, and the caller catches that. */
  lemma BlankThemeIsEmpty(d: Disk, c: Codec)
    requires Lawful(c)
    requires THEME_FILE in d.active && IsBlank(d.active[THEME_FILE])
    ensures ThemeOf(d, c) == map[]
  {
  }

  /** A blank export file is refused by `importData`. */
  lemma BlankExportRefused(d: Disk, c: Codec, name: string)
    requires Lawful(c)
    requires name in d.exports && IsBlank(d.exports[name])
    ensures Imported(d, name, c) == None
  {
  }
}
