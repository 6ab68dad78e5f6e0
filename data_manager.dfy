/** `DataManager`: the task and session lists the application works on,
    written to the store after every change, read back from it on load, and
    bundled into and out of export files. Every operation that reads the
    clock takes one reading, `ts` (the backup timestamp text) and `now`
    (the modification time), as parameters. */
module DataManagement {
  import opened Wrappers
  import opened Json
  import opened StorageSpec
  import opened Records
  import opened Storage

  // ------------------------------------------------------------ specification

  /** `List.remove(o)`: the list without its first element equal to `x`;
      a list without `x` is returned as it is. */
  function RemoveFirst<T(==)>(s: seq<T>, x: T): (r: seq<T>)
    ensures x !in s ==> r == s
    ensures x in s ==> |r| == |s| - 1
  {
    if s == [] then []
    else if s[0] == x then s[1..]
    else [s[0]] + RemoveFirst(s[1..], x)
  }

  /** `saveData`: the task document is written, then the session document;
      when some session has no end time the second save throws before
      writing anything. */
  ghost predicate SaveStep(d: Disk, d': Disk, tasks: seq<TaskRecord>, sessions: seq<SessionRecord>,
                           c: Codec, ts: string, now: int) {
    exists mid ::
      && WriteStep(d, mid, TASKS_FILE, c.render(JObject(TasksDocument(tasks, c))), ts, now)
      && match SessionsDocument(sessions, c)
         case Some(doc) => WriteStep(mid, d', SESSIONS_FILE, c.render(JObject(doc)), ts, now)
         case None => d' == mid
  }

  /** The writes at the end of a finished `importData`: the bundle's theme,
      if it has one, goes to `theme.json`, then both lists are saved. */
  ghost predicate ImportWrites(d: Disk, d': Disk, bundle: map<string, JsonObject>, tasks: seq<TaskRecord>,
                               sessions: seq<SessionRecord>, c: Codec, ts: string, now: int) {
    exists mid ::
      && (if THEME_KEY in bundle then WriteStep(d, mid, THEME_FILE, c.render(JObject(bundle[THEME_KEY])), ts, now)
          else mid == d)
      && SaveStep(mid, d', tasks, sessions, c, ts, now)
  }

  /** `exportAllData`: the bundle of the task document, the session
      document and the theme read from `theme.json`, handed to the store's
      export; when some session has no end time the export throws before
      anything is written. */
  function ExportedData(d: Disk, tasks: seq<TaskRecord>, sessions: seq<SessionRecord>,
                        c: Codec, ts: string, isoNow: string): (r: (Disk, Option<string>))
    ensures SessionsDocument(sessions, c).None? ==> r == (d, None)
  {
    match SessionsDocument(sessions, c)
    case None => (d, None)
    case Some(doc) => Exported(d, AllDocuments(TasksDocument(tasks, c), doc, ThemeOf(d, c)), ts, isoNow, c)
  }

  // ---------------------------------------------------------------- the loop

  /** The loop shared by loading and importing: starting from an empty
      list, the elements are read in order and appended, up to the first
      one that throws; `finished` says whether the loop got to the end. */
  method ReadAll<T>(items: seq<Json>, decode: Json -> Option<T>) returns (list: seq<T>, finished: bool)
    ensures list == DecodeWhile(items, decode)
    ensures finished == AllDecode(items, decode)
  {
    list := [];
    var i := 0;
    while i < |items|
      invariant 0 <= i <= |items|
      invariant forall k :: 0 <= k < i ==> decode(items[k]).Some?
      invariant DecodeWhile(items, decode) == list + DecodeWhile(items[i..], decode)
    {
      assert items[i..][0] == items[i] && items[i..][1..] == items[i + 1..];
      match decode(items[i]) {
        case None =>
          return list, false;
        case Some(v) =>
          list := list + [v];
      }
      i := i + 1;
    }
    return list, true;
  }

  class DataManager {
    var tasks: seq<TaskRecord>
    var sessions: seq<SessionRecord>
    const storage: LocalStorage

    ghost predicate Valid()
      reads this, storage
    {
      storage.Valid()
    }

    /** Empty lists over a new store, whose directories are created. */
    constructor (initial: Disk, codec: Codec)
      requires initial.Valid()
      ensures Valid() && fresh(storage) && storage.codec == codec
      ensures tasks == [] && sessions == []
      ensures storage.State() == EnsureDirs(initial)
    {
      tasks := [];
      sessions := [];
      var store := new LocalStorage(initial, codec);
      store.EnsureDirectoriesExist();
      storage := store;
    }

    // ------------------------------------------------------------- loading

    /** `loadTasks`. The legacy branch, `new JSONArray(data.toString())`,
        is taken as written; an exception inside the loop keeps the tasks
        read so far. */
    method LoadTasks()
      requires Valid()
      modifies this
      ensures Valid()
      ensures tasks == LoadedTasks(storage.State(), old(tasks), storage.codec)
      ensures sessions == old(sessions)
    {
      var data := storage.ReadJsonFile(TASKS_FILE);
      var items := ArrayMember(data, TASKS_KEY);
      if items.None? {
        match storage.codec.parse(storage.codec.render(JObject(data))) {
          case Some(JArray(legacy)) =>
            if legacy == [] {
              return;
            }
            items := Some(legacy);
          case _ =>
            return;
        }
      }
      var list, finished := ReadAll(items.value, TaskDecoder(storage.codec));
      tasks := list;
    }

    /** `loadStudySessions`, in the same way. */
    method LoadStudySessions()
      requires Valid()
      modifies this
      ensures Valid()
      ensures sessions == LoadedSessions(storage.State(), old(sessions), storage.codec)
      ensures tasks == old(tasks)
    {
      var data := storage.ReadJsonFile(SESSIONS_FILE);
      var items := ArrayMember(data, SESSIONS_KEY);
      if items.None? {
        match storage.codec.parse(storage.codec.render(JObject(data))) {
          case Some(JArray(legacy)) =>
            if legacy == [] {
              return;
            }
            items := Some(legacy);
          case _ =>
            return;
        }
      }
      var list, finished := ReadAll(items.value, SessionDecoder(storage.codec));
      sessions := list;
    }

    /** `loadData`: the tasks, then the sessions, from an unchanged disk. */
    method LoadData()
      requires Valid()
      modifies this
      ensures Valid()
      ensures tasks == LoadedTasks(storage.State(), old(tasks), storage.codec)
      ensures sessions == LoadedSessions(storage.State(), old(sessions), storage.codec)
    {
      LoadTasks();
      LoadStudySessions();
    }

    // -------------------------------------------------------------- saving

    /** The task array `saveTasks` and `exportAllData` build, one object
        per task in list order. */
    method TasksArray() returns (items: seq<Json>)
      ensures items == EncodeTasks(tasks, storage.codec)
    {
      items := [];
      for i := 0 to |tasks|
        invariant |items| == i
        invariant forall k :: 0 <= k < i ==> items[k] == JObject(EncodeTask(tasks[k], storage.codec))
      {
        items := items + [JObject(EncodeTask(tasks[i], storage.codec))];
      }
    }

    /** The session array `saveStudySessions` and `exportAllData` build,
        or `None` where `getEndTime().toString()` throws on a session that
        has not ended. */
    method SessionsArray() returns (items: Option<seq<Json>>)
      ensures items == EncodeSessions(sessions, storage.codec)
    {
      var built := [];
      for i := 0 to |sessions|
        invariant |built| == i
        invariant forall k :: 0 <= k < i ==> Encodable(sessions[k])
        invariant forall k :: 0 <= k < i ==> built[k] == JObject(EncodeSession(sessions[k], storage.codec))
      {
        if sessions[i].endTime.None? {
          return None;
        }
        built := built + [JObject(EncodeSession(sessions[i], storage.codec))];
      }
      var all := EncodeSessions(sessions, storage.codec);
      assert all.Some? && |all.value| == |built|;
      assert forall k :: 0 <= k < |built| ==> all.value[k] == built[k];
      assert all.value == built;
      return Some(built);
    }

    /** `saveTasks`: writes `{"tasks": [...]}` to `tasks.json`. */
    method SaveTasks(ts: string, now: int)
      requires Valid()
      modifies storage
      ensures Valid()
      ensures WriteStep(old(storage.State()), storage.State(), TASKS_FILE,
                        storage.codec.render(JObject(TasksDocument(tasks, storage.codec))), ts, now)
    {
      var items := TasksArray();
      var data := map[TASKS_KEY := JArray(items)];
      storage.WriteJsonFile(TASKS_FILE, data, ts, now);
    }

    /** `saveStudySessions`: writes `{"sessions": [...]}` to
        `sessions.json`; `false` is the exception thrown, before any write,
        on a session without an end time. */
    method SaveStudySessions(ts: string, now: int) returns (ok: bool)
      requires Valid()
      modifies storage
      ensures Valid()
      ensures ok == SessionsDocument(sessions, storage.codec).Some?
      ensures ok ==> WriteStep(old(storage.State()), storage.State(), SESSIONS_FILE,
                               storage.codec.render(JObject(SessionsDocument(sessions, storage.codec).value)), ts, now)
      ensures !ok ==> storage.State() == old(storage.State())
    {
      var items := SessionsArray();
      if items.None? {
        return false;
      }
      var data := map[SESSIONS_KEY := JArray(items.value)];
      storage.WriteJsonFile(SESSIONS_FILE, data, ts, now);
      ok := true;
    }

    /** `saveData`: the tasks, then the sessions. */
    method SaveData(ts: string, now: int) returns (ok: bool)
      requires Valid()
      modifies storage
      ensures Valid()
      ensures ok == SessionsDocument(sessions, storage.codec).Some?
      ensures SaveStep(old(storage.State()), storage.State(), tasks, sessions, storage.codec, ts, now)
    {
      SaveTasks(ts, now);
      ghost var mid := storage.State();
      ok := SaveStudySessions(ts, now);
      assert WriteStep(old(storage.State()), mid, TASKS_FILE,
                       storage.codec.render(JObject(TasksDocument(tasks, storage.codec))), ts, now);
    }

    // -------------------------------------------------------------- changes

    /** `addTask`: appends the task, then saves the tasks. */
    method AddTask(task: TaskRecord, ts: string, now: int)
      requires Valid()
      modifies this, storage
      ensures Valid()
      ensures tasks == old(tasks) + [task] && sessions == old(sessions)
      ensures WriteStep(old(storage.State()), storage.State(), TASKS_FILE,
                        storage.codec.render(JObject(TasksDocument(tasks, storage.codec))), ts, now)
    {
      tasks := tasks + [task];
      SaveTasks(ts, now);
    }

    /** `removeTask`: removes the first equal task, if any, then saves the
        tasks. */
    method RemoveTask(task: TaskRecord, ts: string, now: int)
      requires Valid()
      modifies this, storage
      ensures Valid()
      ensures tasks == RemoveFirst(old(tasks), task) && sessions == old(sessions)
      ensures WriteStep(old(storage.State()), storage.State(), TASKS_FILE,
                        storage.codec.render(JObject(TasksDocument(tasks, storage.codec))), ts, now)
    {
      tasks := RemoveFirst(tasks, task);
      SaveTasks(ts, now);
    }

    /** `updateTask`: the task was changed where it sits in the list; only
        the save is left to do. */
    method UpdateTask(ts: string, now: int)
      requires Valid()
      modifies storage
      ensures Valid()
      ensures WriteStep(old(storage.State()), storage.State(), TASKS_FILE,
                        storage.codec.render(JObject(TasksDocument(tasks, storage.codec))), ts, now)
    {
      SaveTasks(ts, now);
    }

    /** `getTasks`: a copy of the list. */
    method GetTasks() returns (copy: seq<TaskRecord>)
      ensures copy == tasks
    {
      copy := tasks;
    }

    /** `addStudySession`: appends the session, then saves the sessions;
        `false` is the exception the save throws when some session has no
        end time, after the session was appended. */
    method AddStudySession(session: SessionRecord, ts: string, now: int) returns (saved: bool)
      requires Valid()
      modifies this, storage
      ensures Valid()
      ensures sessions == old(sessions) + [session] && tasks == old(tasks)
      ensures saved == SessionsDocument(sessions, storage.codec).Some?
      ensures saved ==> WriteStep(old(storage.State()), storage.State(), SESSIONS_FILE,
                                  storage.codec.render(JObject(SessionsDocument(sessions, storage.codec).value)), ts, now)
      ensures !saved ==> storage.State() == old(storage.State())
    {
      sessions := sessions + [session];
      saved := SaveStudySessions(ts, now);
    }

    /** `removeStudySession`: removes the first equal session, if any, then
        saves the sessions. */
    method RemoveStudySession(session: SessionRecord, ts: string, now: int) returns (saved: bool)
      requires Valid()
      modifies this, storage
      ensures Valid()
      ensures sessions == RemoveFirst(old(sessions), session) && tasks == old(tasks)
      ensures saved == SessionsDocument(sessions, storage.codec).Some?
      ensures saved ==> WriteStep(old(storage.State()), storage.State(), SESSIONS_FILE,
                                  storage.codec.render(JObject(SessionsDocument(sessions, storage.codec).value)), ts, now)
      ensures !saved ==> storage.State() == old(storage.State())
    {
      sessions := RemoveFirst(sessions, session);
      saved := SaveStudySessions(ts, now);
    }

    /** `getStudySessions`: a copy of the list. */
    method GetStudySessions() returns (copy: seq<SessionRecord>)
      ensures copy == sessions
    {
      copy := sessions;
    }

    // ------------------------------------------------------- export, import

    /** The theme object `exportAllData` reads from `theme.json`. */
    method ReadTheme() returns (theme: JsonObject)
      ensures theme == ThemeOf(storage.State(), storage.codec)
    {
      theme := map[];
      if THEME_FILE in storage.active {
        match storage.codec.parse(storage.active[THEME_FILE]) {
          case Some(JObject(o)) =>
            theme := o;
          case _ =>
        }
      }
    }

    /** `exportAllData`: the name of the export file, or `None` when the
        store's write fails or the session array throws. */
    method ExportAllData(ts: string, isoNow: string) returns (path: Option<string>)
      requires Valid()
      modifies storage
      ensures Valid()
      ensures (storage.State(), path) ==
                ExportedData(old(storage.State()), tasks, sessions, storage.codec, ts, isoNow)
    {
      var taskItems := TasksArray();
      var tasksData := map[TASKS_KEY := JArray(taskItems)];
      var sessionItems := SessionsArray();
      if sessionItems.None? {
        return None;
      }
      var sessionsData := map[SESSIONS_KEY := JArray(sessionItems.value)];
      var theme := ReadTheme();
      var docs := map[TASKS_KEY := tasksData, SESSIONS_KEY := sessionsData, THEME_KEY := theme];
      path := storage.ExportData(docs, ts, isoNow);
    }

    /** `importData(exportFilePath)`: reads the export; a list whose member
        holds its array is replaced by what the loop reads from it, and an
        exception in that loop ends the import with `false`, the list read
        so far kept and nothing written; a finished import writes the
        theme, if any, and saves both lists, `false` again when the session
        save throws. */
    method ImportData(name: string, ts: string, now: int) returns (ok: bool)
      requires Valid()
      modifies this, storage
      ensures Valid()
      ensures Imported(old(storage.State()), name, storage.codec).None? ==>
                !ok && tasks == old(tasks) && sessions == old(sessions) && storage.State() == old(storage.State())
      ensures Imported(old(storage.State()), name, storage.codec).Some? ==>
                var bundle := Imported(old(storage.State()), name, storage.codec).value;
                var newTasks := ImportedList(bundle, TASKS_KEY, old(tasks), TaskDecoder(storage.codec));
                var newSessions := ImportedList(bundle, SESSIONS_KEY, old(sessions), SessionDecoder(storage.codec));
                && tasks == newTasks.0
                && sessions == (if newTasks.1 then newSessions.0 else old(sessions))
                && (if newTasks.1 && newSessions.1
                    then ok == SessionsDocument(sessions, storage.codec).Some?
                         && ImportWrites(old(storage.State()), storage.State(), bundle, tasks, sessions, storage.codec, ts, now)
                    else !ok && storage.State() == old(storage.State()))
    {
      var imported := storage.ImportData(name);
      if imported.None? {
        return false;
      }
      var bundle := imported.value;
      if TASKS_KEY in bundle {
        var items := ArrayMember(bundle[TASKS_KEY], TASKS_KEY);
        if items.Some? {
          var list, finished := ReadAll(items.value, TaskDecoder(storage.codec));
          tasks := list;
          if !finished {
            return false;
          }
        }
      }
      if SESSIONS_KEY in bundle {
        var items := ArrayMember(bundle[SESSIONS_KEY], SESSIONS_KEY);
        if items.Some? {
          var list, finished := ReadAll(items.value, SessionDecoder(storage.codec));
          sessions := list;
          if !finished {
            return false;
          }
        }
      }
      ghost var start := storage.State();
      if THEME_KEY in bundle {
        storage.WriteJsonFile(THEME_FILE, bundle[THEME_KEY], ts, now);
      }
      ghost var mid := storage.State();
      ok := SaveData(ts, now);
      assert if THEME_KEY in bundle then WriteStep(start, mid, THEME_FILE, storage.codec.render(JObject(bundle[THEME_KEY])), ts, now)
             else mid == start;
    }

    // ---------------------------------------------------- store delegations

    /** `restoreFromBackup`: the store's restore, then, when it reports
        success, a reload of both lists from the restored disk. */
    method RestoreFromBackup(backup: string, target: string, ts: string, now: int) returns (ok: bool)
      requires Valid()
      modifies this, storage
      ensures Valid()
      ensures RestoreStep(old(storage.State()), storage.State(), backup, target, ts, now, ok)
      ensures tasks == if ok then LoadedTasks(storage.State(), old(tasks), storage.codec) else old(tasks)
      ensures sessions == if ok then LoadedSessions(storage.State(), old(sessions), storage.codec) else old(sessions)
    {
      ok := storage.RestoreFromBackup(backup, target, ts, now);
      if ok {
        LoadData();
      }
    }

    /** `clearAllData`: empties both lists and deletes the documents. */
    method ClearAllData()
      requires Valid()
      modifies this, storage
      ensures Valid()
      ensures tasks == [] && sessions == []
      ensures storage.State() == Cleared(old(storage.State()))
    {
      tasks := [];
      sessions := [];
      storage.ClearAllData();
    }

    /** `getExportFiles`. */
    method GetExportFiles() returns (files: set<string>)
      ensures files == ExportFiles(storage.State())
    {
      files := storage.GetExportFiles();
    }

    /** `getBackupFiles(filename)`. */
    method GetBackupFiles(filename: string) returns (files: set<string>)
      requires Valid()
      ensures files == BackupFiles(storage.State(), filename)
    {
      files := storage.GetBackupFiles(filename);
    }

    /** `getStorageStats`. */
    method GetStorageStats() returns (stats: StorageStats)
      ensures stats.dataFiles == if storage.dataDir then |JsonFiles(storage.active)| else 0
      ensures stats.backupFiles == if storage.backupDir then |storage.backups| else 0
      ensures stats.exportFiles == if storage.exportDir then |storage.exports| else 0
    {
      stats := storage.GetStorageStats();
    }
  }
}
