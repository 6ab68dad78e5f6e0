/** The task and session records `DataManager` keeps in memory, the JSON
    objects it saves them as, and how it reads them back from the files
    `tasks.json` and `sessions.json`. */
module Records {
  import opened Wrappers
  import opened JavaInt
  import opened Json
  import opened StorageSpec
  import opened SessionTypes
  import StudySessions

  const TASKS_FILE: string := "tasks.json"
  const SESSIONS_FILE: string := "sessions.json"
  const THEME_FILE: string := "theme.json"
  const TASKS_KEY: string := "tasks"
  const SESSIONS_KEY: string := "sessions"
  const THEME_KEY: string := "theme"

  /** The eight task fields the manager saves. `None` is Java's null. */
  datatype TaskRecord = TaskRecord(
    id: string,
    title: Option<string>,
    description: Option<string>,
    completed: bool,
    createdAt: int,
    active: bool,
    totalTimeSpent: Int32,
    estimatedTime: Int32)

  /** The session fields the manager saves, and the duration it derives.
      A session that has not ended has no end time. */
  datatype SessionRecord = SessionRecord(
    id: string,
    startTime: int,
    endTime: Option<int>,
    durationMinutes: Int32,
    subject: Option<string>,
    notes: Option<string>,
    sessionType: Option<SessionType>,
    projectName: Option<string>)

  // ------------------------------------------------------------- encoding

  /** `put(key, value)` with a possibly null string: `JSONObject.put` with
      null removes the key, so nothing is stored. */
  function PutText(o: JsonObject, key: string, value: Option<string>): JsonObject {
    if value.Some? then o[key := JString(value.value)] else o - {key}
  }

  /** The object `saveTasks` builds for one task. */
  function EncodeTask(t: TaskRecord, c: Codec): (o: JsonObject)
    ensures o.Keys == {"id", "completed", "createdAt", "active", "totalTimeSpent", "estimatedTime"}
                      + (if t.title.Some? then {"title"} else {})
                      + (if t.description.Some? then {"description"} else {})
  {
    var o := map["id" := JString(t.id)];
    var o := PutText(o, "title", t.title);
    var o := PutText(o, "description", t.description);
    o["completed" := JBool(t.completed)]
     ["createdAt" := JString(c.showTime(t.createdAt))]
     ["active" := JBool(t.active)]
     ["totalTimeSpent" := JInt(t.totalTimeSpent)]
     ["estimatedTime" := JInt(t.estimatedTime)]
  }

  /** The array `saveTasks` builds. */
  function EncodeTasks(ts: seq<TaskRecord>, c: Codec): (items: seq<Json>)
    ensures |items| == |ts|
    ensures forall i :: 0 <= i < |ts| ==> items[i] == JObject(EncodeTask(ts[i], c))
  {
    seq(|ts|, i requires 0 <= i < |ts| => JObject(EncodeTask(ts[i], c)))
  }

  /** The document `saveTasks` writes: `{"tasks": [...]}`. */
  function TasksDocument(ts: seq<TaskRecord>, c: Codec): JsonObject {
    map[TASKS_KEY := JArray(EncodeTasks(ts, c))]
  }

  /** Whether `saveStudySessions` can encode a session: it prints the end
      time with `getEndTime().toString()`, which throws on a session that
      has not ended. */
  predicate Encodable(s: SessionRecord) {
    s.endTime.Some?
  }

  /** The object `saveStudySessions` builds for one ended session. The
      duration is not stored. */
  function EncodeSession(s: SessionRecord, c: Codec): (o: JsonObject)
    requires Encodable(s)
    ensures {"id", "startTime", "endTime"} <= o.Keys
    ensures "durationMinutes" !in o
  {
    var o := map["id" := JString(s.id),
                 "startTime" := JString(c.showTime(s.startTime)),
                 "endTime" := JString(c.showTime(s.endTime.value))];
    var o := PutText(o, "subject", s.subject);
    var o := PutText(o, "notes", s.notes);
    var o := if s.sessionType.Some? then o["sessionType" := JString(Name(s.sessionType.value))] else o;
    if s.projectName.Some? then o["projectName" := JString(s.projectName.value)] else o
  }

  /** The array `saveStudySessions` builds, or `None` when some session has
      no end time and the save throws. */
  function EncodeSessions(ss: seq<SessionRecord>, c: Codec): (r: Option<seq<Json>>)
    ensures r.Some? <==> forall i :: 0 <= i < |ss| ==> Encodable(ss[i])
    ensures r.Some? ==> |r.value| == |ss|
    ensures r.Some? ==> forall i :: 0 <= i < |ss| ==> r.value[i] == JObject(EncodeSession(ss[i], c))
  {
    if forall i :: 0 <= i < |ss| ==> Encodable(ss[i]) then
      Some(seq(|ss|, i requires 0 <= i < |ss| && Encodable(ss[i]) => JObject(EncodeSession(ss[i], c))))
    else None
  }

  /** The document `saveStudySessions` writes: `{"sessions": [...]}`. */
  function SessionsDocument(ss: seq<SessionRecord>, c: Codec): Option<JsonObject> {
    match EncodeSessions(ss, c)
    case Some(items) => Some(map[SESSIONS_KEY := JArray(items)])
    case None => None
  }

  // ------------------------------------------------------------- decoding

  /** One array element read as a task, as the load and import loops do:
      `getJSONObject` needs an object, `getString` an id, a title and a
      creation time that `LocalDateTime.parse` accepts, and `getBoolean` a
      completion flag; the rest fall back to their defaults. `None` is the
      exception that ends the loop. */
  function DecodeTask(j: Json, c: Codec): (r: Option<TaskRecord>)
    ensures r.Some? ==> j.JObject? && "id" in j.fields && "title" in j.fields && r.value.title.Some?
  {
    if !j.JObject? then None
    else
      var o := j.fields;
      var id :- GetString(o, "id");
      var title :- GetString(o, "title");
      var completed :- GetBoolean(o, "completed");
      var createdText :- GetString(o, "createdAt");
      var createdAt :- c.parseTime(createdText);
      Some(TaskRecord(
        id, Some(title), Some(OptString(o, "description", "", c)), completed, createdAt,
        OptBoolean(o, "active", false), OptInt(o, "totalTimeSpent", 0), OptInt(o, "estimatedTime", 0)))
  }

  /** One array element read as a session: an object with an id and two
      date-times; a fresh session takes the start, then the end, which
      derives the duration; subject, notes and project default to "", and
      a missing or unknown type name becomes WORK. */
  function DecodeSession(j: Json, c: Codec): (r: Option<SessionRecord>)
    ensures r.Some? ==> j.JObject? && "endTime" in j.fields && Encodable(r.value)
    ensures r.Some? ==> r.value.durationMinutes == StudySessions.MinutesBetween(r.value.startTime, r.value.endTime.value)
    ensures r.Some? ==> r.value.sessionType.Some? && r.value.subject.Some? && r.value.notes.Some?
  {
    if !j.JObject? then None
    else
      var o := j.fields;
      var id :- GetString(o, "id");
      var startText :- GetString(o, "startTime");
      var startTime :- c.parseTime(startText);
      var endText :- GetString(o, "endTime");
      var endTime :- c.parseTime(endText);
      var typeName := OptString(o, "sessionType", "WORK", c);
      Some(SessionRecord(
        id, startTime, Some(endTime), StudySessions.MinutesBetween(startTime, endTime),
        Some(OptString(o, "subject", "", c)), Some(OptString(o, "notes", "", c)),
        Some(ValueOf(typeName).GetOr(WORK)), Some(OptString(o, "projectName", "", c))))
  }

  /** The list a load loop leaves: it was cleared, then every element read
      in order was appended, up to the first one that threw. */
  function DecodeWhile<T>(items: seq<Json>, decode: Json -> Option<T>): (r: seq<T>)
    ensures |r| <= |items|
    ensures forall i :: 0 <= i < |r| ==> decode(items[i]) == Some(r[i])
  {
    if items == [] then []
    else match decode(items[0])
      case None => []
      case Some(v) => [v] + DecodeWhile(items[1..], decode)
  }

  /** Whether every element reads, so that the loop finishes. */
  predicate AllDecode<T>(items: seq<Json>, decode: Json -> Option<T>) {
    forall i :: 0 <= i < |items| ==> decode(items[i]).Some?
  }

  function TaskDecoder(c: Codec): Json -> Option<TaskRecord> {
    j => DecodeTask(j, c)
  }

  function SessionDecoder(c: Codec): Json -> Option<SessionRecord> {
    j => DecodeSession(j, c)
  }

  /** The array a load reads: the member `key` when it is an array;
      otherwise the loader falls back to `new JSONArray(data.toString())`,
      which yields the array only when the object's own text parses as a
      non-empty array. `None` leaves the in-memory list as it was. */
  function ListMember(data: JsonObject, key: string, c: Codec): Option<seq<Json>> {
    match ArrayMember(data, key)
    case Some(items) => Some(items)
    case None =>
      match c.parse(c.render(JObject(data)))
      case Some(JArray(items)) => if items == [] then None else Some(items)
      case _ => None
  }

  /** `loadTasks`: the new task list, given the current one. */
  function LoadedTasks(d: Disk, current: seq<TaskRecord>, c: Codec): seq<TaskRecord> {
    match ListMember(ReadJson(d, TASKS_FILE, c), TASKS_KEY, c)
    case None => current
    case Some(items) => DecodeWhile(items, TaskDecoder(c))
  }

  /** `loadStudySessions`: the new session list, given the current one. */
  function LoadedSessions(d: Disk, current: seq<SessionRecord>, c: Codec): seq<SessionRecord> {
    match ListMember(ReadJson(d, SESSIONS_FILE, c), SESSIONS_KEY, c)
    case None => current
    case Some(items) => DecodeWhile(items, SessionDecoder(c))
  }

  // ---------------------------------------------------------- normal forms

  /** A task as it comes back from its saved object: a null description
      comes back as "". */
  function ReloadedTask(t: TaskRecord): TaskRecord {
    t.(description := Some(t.description.GetOr("")))
  }

  /** A session as it comes back from its saved object: the duration is
      derived again from start and end, null texts come back as "", and a
      null type as WORK. */
  function ReloadedSession(s: SessionRecord): SessionRecord
    requires Encodable(s)
  {
    s.(durationMinutes := StudySessions.MinutesBetween(s.startTime, s.endTime.value),
       subject := Some(s.subject.GetOr("")),
       notes := Some(s.notes.GetOr("")),
       sessionType := Some(s.sessionType.GetOr(WORK)),
       projectName := Some(s.projectName.GetOr("")))
  }

  function ReloadedTasks(ts: seq<TaskRecord>): (r: seq<TaskRecord>)
    ensures |r| == |ts| && forall i :: 0 <= i < |ts| ==> r[i] == ReloadedTask(ts[i])
  {
    seq(|ts|, i requires 0 <= i < |ts| => ReloadedTask(ts[i]))
  }

  function ReloadedSessions(ss: seq<SessionRecord>): (r: seq<SessionRecord>)
    requires forall i :: 0 <= i < |ss| ==> Encodable(ss[i])
    ensures |r| == |ss| && forall i :: 0 <= i < |ss| ==> r[i] == ReloadedSession(ss[i])
  {
    seq(|ss|, i requires 0 <= i < |ss| && Encodable(ss[i]) => ReloadedSession(ss[i]))
  }

  // ---------------------------------------------------------------- import

  /** One list's part of `importData`: a bundle member `key` holding a
      `key` array replaces the list by what the loop reads from it, and the
      flag says whether the loop finished; anything else keeps the list. */
  function ImportedList<T>(bundle: map<string, JsonObject>, key: string, current: seq<T>,
                           decode: Json -> Option<T>): (seq<T>, bool) {
    if key !in bundle then (current, true)
    else match ArrayMember(bundle[key], key)
      case None => (current, true)
      case Some(items) => (DecodeWhile(items, decode), AllDecode(items, decode))
  }

  /** The bundle `exportAllData` hands to the store. */
  function AllDocuments(tasks: JsonObject, sessions: JsonObject, theme: JsonObject): map<string, JsonObject> {
    map[TASKS_KEY := tasks, SESSIONS_KEY := sessions, THEME_KEY := theme]
  }

  /** The theme `exportAllData` reads directly from `data/theme.json`: the
      parsed object, or an empty one when the file is missing or its text
      is not an object. */
  function ThemeOf(d: Disk, c: Codec): JsonObject {
    if THEME_FILE !in d.active then map[]
    else match c.parse(d.active[THEME_FILE])
      case Some(JObject(o)) => o
      case _ => map[]
  }
}
