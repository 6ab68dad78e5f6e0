/** What saving and loading the task and session records does to them:
    round trips, the prefix a failed load leaves, and the legacy branch of
    the loaders that can never be taken. */
module RecordProperties {
  import opened Wrappers
  import opened JavaInt
  import opened Json
  import opened StorageSpec
  import opened SessionTypes
  import opened Records
  import StudySessions

  /** A load loop that meets its first unreadable element at `k` (or none,
      `k == |items|`) leaves exactly the first `k` elements, read. */
  lemma {:induction false} DecodeWhilePrefix<T>(items: seq<Json>, decode: Json -> Option<T>, k: nat)
    requires k <= |items|
    requires forall i :: 0 <= i < k ==> decode(items[i]).Some?
    requires k < |items| ==> decode(items[k]).None?
    ensures |DecodeWhile(items, decode)| == k
    ensures forall i :: 0 <= i < k ==> DecodeWhile(items, decode)[i] == decode(items[i]).value
    decreases k
  {
    if k > 0 {
      DecodeWhilePrefix(items[1..], decode, k - 1);
    }
  }

  /** The loop finishes exactly when every element reads. */
  lemma AllDecodeIffComplete<T>(items: seq<Json>, decode: Json -> Option<T>)
    ensures AllDecode(items, decode) <==> |DecodeWhile(items, decode)| == |items|
  {
    if AllDecode(items, decode) {
      DecodeWhilePrefix(items, decode, |items|);
    } else {
      var k :| 0 <= k < |items| && decode(items[k]).None?;
      var first := FirstFailure(items, decode, k);
      DecodeWhilePrefix(items, decode, first);
    }
  }

  /** The position of the first unreadable element, given that the one at
      `k` is unreadable. */
  lemma FirstFailure<T>(items: seq<Json>, decode: Json -> Option<T>, k: nat) returns (first: nat)
    requires k < |items| && decode(items[k]).None?
    ensures first <= k && decode(items[first]).None?
    ensures forall i :: 0 <= i < first ==> decode(items[i]).Some?
  {
    first := 0;
    while decode(items[first]).Some?
      invariant first <= k
      invariant forall i :: 0 <= i < first ==> decode(items[i]).Some?
      decreases k - first
    {
      first := first + 1;
    }
  }

  // ------------------------------------------------------------------ tasks

  /** A task with a title comes back from its saved object unchanged, but
      for a null description, which comes back as "". */
  lemma TaskRoundTrip(t: TaskRecord, c: Codec)
    requires Lawful(c) && t.title.Some?
    ensures DecodeTask(JObject(EncodeTask(t, c)), c) == Some(ReloadedTask(t))
  {
    var o := EncodeTask(t, c);
    assert o["id"] == JString(t.id);
    assert o["title"] == JString(t.title.value);
    assert o["completed"] == JBool(t.completed);
    assert o["createdAt"] == JString(c.showTime(t.createdAt));
    assert c.parseTime(c.showTime(t.createdAt)) == Some(t.createdAt);
    assert o["active"] == JBool(t.active);
    assert o["totalTimeSpent"] == JInt(t.totalTimeSpent);
    assert o["estimatedTime"] == JInt(t.estimatedTime);
    if t.description.Some? {
      assert o["description"] == JString(t.description.value);
    } else {
      assert "description" !in o;
    }
  }

  /** A task saved with a null title cannot be read back: `put` drops the
      key and `getString("title")` throws. */
  lemma NullTitleUnreadable(t: TaskRecord, c: Codec)
    requires t.title.None?
    ensures DecodeTask(JObject(EncodeTask(t, c)), c) == None
  {
    assert "title" !in EncodeTask(t, c);
  }

  /** Reading a saved task array gives the tasks back, up to the first task
      without a title; the load finishes exactly when there is none. */
  lemma {:induction false} TasksReadBack(ts: seq<TaskRecord>, c: Codec, k: nat)
    requires Lawful(c)
    requires k <= |ts|
    requires forall i :: 0 <= i < k ==> ts[i].title.Some?
    requires k < |ts| ==> ts[k].title.None?
    ensures DecodeWhile(EncodeTasks(ts, c), TaskDecoder(c)) == ReloadedTasks(ts[..k])
    ensures AllDecode(EncodeTasks(ts, c), TaskDecoder(c)) <==> k == |ts|
  {
    var items := EncodeTasks(ts, c);
    var f := TaskDecoder(c);
    forall i | 0 <= i < k
      ensures f(items[i]) == Some(ReloadedTask(ts[i]))
    {
      TaskRoundTrip(ts[i], c);
    }
    if k < |ts| {
      NullTitleUnreadable(ts[k], c);
    }
    DecodeWhilePrefix(items, f, k);
    AllDecodeIffComplete(items, f);
  }

  // --------------------------------------------------------------- sessions

  /** An ended session comes back from its saved object with its duration
      derived from start and end, null texts as "", and a null type as
      WORK; every other field is unchanged. */
  lemma SessionRoundTrip(s: SessionRecord, c: Codec)
    requires Lawful(c) && Encodable(s)
    ensures DecodeSession(JObject(EncodeSession(s, c)), c) == Some(ReloadedSession(s))
  {
    var o := EncodeSession(s, c);
    assert o["id"] == JString(s.id);
    assert o["startTime"] == JString(c.showTime(s.startTime));
    assert o["endTime"] == JString(c.showTime(s.endTime.value));
    assert c.parseTime(c.showTime(s.startTime)) == Some(s.startTime);
    var end := s.endTime.value;
    assert c.parseTime(c.showTime(end)) == Some(end);
    if s.sessionType.Some? {
      assert o["sessionType"] == JString(Name(s.sessionType.value));
      ValueOfName(s.sessionType.value);
    } else {
      assert "sessionType" !in o;
    }
    if s.subject.Some? {
      assert o["subject"] == JString(s.subject.value);
    } else {
      assert "subject" !in o;
    }
    if s.notes.Some? {
      assert o["notes"] == JString(s.notes.value);
    } else {
      assert "notes" !in o;
    }
    if s.projectName.Some? {
      assert o["projectName"] == JString(s.projectName.value);
    } else {
      assert "projectName" !in o;
    }
  }

  /** Reading a saved session array gives every session back, reloaded. */
  lemma SessionsReadBack(ss: seq<SessionRecord>, c: Codec)
    requires Lawful(c)
    requires EncodeSessions(ss, c).Some?
    ensures DecodeWhile(EncodeSessions(ss, c).value, SessionDecoder(c)) == ReloadedSessions(ss)
    ensures AllDecode(EncodeSessions(ss, c).value, SessionDecoder(c))
  {
    var items := EncodeSessions(ss, c).value;
    var f := SessionDecoder(c);
    forall i | 0 <= i < |ss|
      ensures f(items[i]) == Some(ReloadedSession(ss[i]))
    {
      SessionRoundTrip(ss[i], c);
    }
    DecodeWhilePrefix(items, f, |ss|);
  }

  /** A stored type name that `valueOf` rejects reads as WORK. */
  lemma UnknownTypeIsWork(o: JsonObject, c: Codec, name: string)
    requires DecodeSession(JObject(o), c).Some?
    requires "sessionType" in o && o["sessionType"] == JString(name)
    requires name != "WORK" && name != "STUDY"
    ensures DecodeSession(JObject(o), c).value.sessionType == Some(WORK)
  {
  }

  // ---------------------------------------------------------- legacy branch

  /** The loaders' fallback, `new JSONArray(data.toString())`, is given the
      text of an object, which parses back to that object and never to an
      array: the fallback always throws, and a file without the list's
      array leaves the in-memory list as it was. */
  lemma LegacyFallbackDead(data: JsonObject, key: string, c: Codec)
    requires Lawful(c)
    ensures ListMember(data, key, c) == ArrayMember(data, key)
  {
    assert c.parse(c.render(JObject(data))) == Some(JObject(data));
  }

  /** A `tasks.json` holding a bare array (the format the fallback was
      written for) reads as the empty object, so the tasks stay as they
      were. */
  lemma LegacyArrayFileIgnored(d: Disk, items: seq<Json>, current: seq<TaskRecord>, c: Codec)
    requires Lawful(c)
    requires TASKS_FILE in d.active && d.active[TASKS_FILE] == c.render(JArray(items))
    ensures LoadedTasks(d, current, c) == current
  {
    assert c.parse(c.render(JArray(items))) == Some(JArray(items));
    assert !IsBlank(c.render(JArray(items)));
    assert ReadJson(d, TASKS_FILE, c) == map[];
    LegacyFallbackDead(map[], TASKS_KEY, c);
  }

  // ------------------------------------------------------------ file level

  /** A `tasks.json` holding the saved document of `ts` loads as `ts`
      reloaded, cut before the first task without a title. */
  lemma LoadSavedTasks(d: Disk, ts: seq<TaskRecord>, current: seq<TaskRecord>, c: Codec, k: nat)
    requires Lawful(c)
    requires TASKS_FILE in d.active && d.active[TASKS_FILE] == c.render(JObject(TasksDocument(ts, c)))
    requires k <= |ts|
    requires forall i :: 0 <= i < k ==> ts[i].title.Some?
    requires k < |ts| ==> ts[k].title.None?
    ensures LoadedTasks(d, current, c) == ReloadedTasks(ts[..k])
  {
    var doc := TasksDocument(ts, c);
    assert c.parse(c.render(JObject(doc))) == Some(JObject(doc));
    assert !IsBlank(c.render(JObject(doc)));
    assert ReadJson(d, TASKS_FILE, c) == doc;
    TasksReadBack(ts, c, k);
  }

  /** A `sessions.json` holding the saved document of `ss` loads as `ss`
      reloaded. */
  lemma LoadSavedSessions(d: Disk, ss: seq<SessionRecord>, current: seq<SessionRecord>, c: Codec)
    requires Lawful(c)
    requires SessionsDocument(ss, c).Some?
    requires SESSIONS_FILE in d.active && d.active[SESSIONS_FILE] == c.render(JObject(SessionsDocument(ss, c).value))
    ensures LoadedSessions(d, current, c) == ReloadedSessions(ss)
  {
    var doc := SessionsDocument(ss, c).value;
    assert c.parse(c.render(JObject(doc))) == Some(JObject(doc));
    assert !IsBlank(c.render(JObject(doc)));
    assert ReadJson(d, SESSIONS_FILE, c) == doc;
    SessionsReadBack(ss, c);
  }

  /** A missing or blank `tasks.json` leaves the tasks as they were. */
  lemma MissingTasksFileKeepsList(d: Disk, current: seq<TaskRecord>, c: Codec)
    requires Lawful(c)
    requires TASKS_FILE !in d.active || IsBlank(d.active[TASKS_FILE])
    ensures LoadedTasks(d, current, c) == current
  {
    LegacyFallbackDead(map[], TASKS_KEY, c);
  }
}
