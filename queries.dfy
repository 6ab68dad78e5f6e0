/** The manager's stream queries: the completed and the open tasks, the
    sessions of one day, and the minutes studied today and this week. Days
    are numbered from 1970-01-01, which was a Thursday. */
module Queries {
  import opened JavaInt
  import opened Records

  const SECONDS_PER_DAY: int := 86400

  /** `getStartTime().toLocalDate()`: the day a start time falls on. */
  function DayOf(time: int): int {
    time / SECONDS_PER_DAY
  }

  /** `getDayOfWeek().getValue()`: 1 for Monday through 7 for Sunday. */
  function DayOfWeek(day: int): (dow: int)
    ensures 1 <= dow <= 7
  {
    (day + 3) % 7 + 1
  }

  /** `today.minusDays(today.getDayOfWeek().getValue() - 1)`: the Monday
      of the week `today` is in. */
  function WeekStart(today: int): (monday: int)
    ensures today - 6 <= monday <= today
    ensures DayOfWeek(monday) == 1
  {
    today - (DayOfWeek(today) - 1)
  }

  // ----------------------------------------------------------------- tasks

  /** The tasks whose completion flag is `done`, in list order: the filter
      both task queries apply. */
  function TasksWithStatus(ts: seq<TaskRecord>, done: bool): (r: seq<TaskRecord>)
    ensures |r| <= |ts|
  {
    if ts == [] then []
    else (if ts[0].completed == done then [ts[0]] else []) + TasksWithStatus(ts[1..], done)
  }

  /** The filter keeps exactly the tasks with that status. */
  lemma {:induction false} StatusMembers(ts: seq<TaskRecord>, done: bool)
    ensures forall t :: t in TasksWithStatus(ts, done) <==> t in ts && t.completed == done
  {
    if ts != [] {
      StatusMembers(ts[1..], done);
      assert ts == [ts[0]] + ts[1..];
    }
  }

  /** `getCompletedTasks`. */
  function CompletedTasks(ts: seq<TaskRecord>): (r: seq<TaskRecord>)
    ensures forall t :: t in r <==> t in ts && t.completed
  {
    StatusMembers(ts, true);
    TasksWithStatus(ts, true)
  }

  /** `getActiveTasks`: the tasks not completed. */
  function ActiveTasks(ts: seq<TaskRecord>): (r: seq<TaskRecord>)
    ensures forall t :: t in r <==> t in ts && !t.completed
  {
    StatusMembers(ts, false);
    TasksWithStatus(ts, false)
  }

  /** The two queries split the list: every task is in exactly one of
      them, as often as in the list, and their sizes add up to its size. */
  lemma {:induction false} TasksPartition(ts: seq<TaskRecord>)
    ensures |CompletedTasks(ts)| + |ActiveTasks(ts)| == |ts|
    ensures multiset(CompletedTasks(ts)) + multiset(ActiveTasks(ts)) == multiset(ts)
  {
    if ts != [] {
      TasksPartition(ts[1..]);
      assert ts == [ts[0]] + ts[1..];
    }
  }

  /** Both task queries keep the list's order: the query of a
      concatenation is the concatenation of the queries. */
  lemma {:induction false} StatusKeepsOrder(a: seq<TaskRecord>, b: seq<TaskRecord>, done: bool)
    ensures TasksWithStatus(a + b, done) == TasksWithStatus(a, done) + TasksWithStatus(b, done)
  {
    if a == [] {
      assert a + b == b;
    } else {
      var ab := a + b;
      assert ab[0] == a[0] && ab[1..] == a[1..] + b;
      StatusKeepsOrder(a[1..], b, done);
      var head := if a[0].completed == done then [a[0]] else [];
      assert TasksWithStatus(ab, done) == head + TasksWithStatus(a[1..] + b, done);
      assert TasksWithStatus(a, done) == head + TasksWithStatus(a[1..], done);
    }
  }

  // -------------------------------------------------------------- sessions

  /** `getStudySessionsForDate(date)`. */
  function SessionsForDate(ss: seq<SessionRecord>, day: int): (r: seq<SessionRecord>)
    ensures |r| <= |ss|
    ensures forall s :: s in r <==> s in ss && DayOf(s.startTime) == day
  {
    if ss == [] then []
    else (if DayOf(ss[0].startTime) == day then [ss[0]] else []) + SessionsForDate(ss[1..], day)
  }

  /** The sessions the weekly total counts: those starting on or after
      `monday`, with no upper bound. */
  function SessionsSince(ss: seq<SessionRecord>, monday: int): (r: seq<SessionRecord>)
    ensures |r| <= |ss|
    ensures forall s :: s in r <==> s in ss && DayOf(s.startTime) >= monday
  {
    if ss == [] then []
    else (if DayOf(ss[0].startTime) > monday - 1 then [ss[0]] else []) + SessionsSince(ss[1..], monday)
  }

  /** The mathematical sum of the durations. */
  function SumMinutes(ss: seq<SessionRecord>): int {
    if ss == [] then 0 else ss[0].durationMinutes + SumMinutes(ss[1..])
  }

  /** `getTotalStudyTimeToday`: `IntStream.sum` of the durations of the
      sessions starting today, which wraps around like Java `int`. */
  function TotalStudyTimeToday(ss: seq<SessionRecord>, today: int): (total: Int32)
    ensures (total - SumMinutes(SessionsForDate(ss, today))) % 0x1_0000_0000 == 0
  {
    Wrap32(SumMinutes(SessionsForDate(ss, today)))
  }

  /** `getTotalStudyTimeThisWeek`: the same sum over the sessions starting
      on or after this week's Monday. */
  function TotalStudyTimeThisWeek(ss: seq<SessionRecord>, today: int): (total: Int32)
    ensures (total - SumMinutes(SessionsSince(ss, WeekStart(today)))) % 0x1_0000_0000 == 0
  {
    Wrap32(SumMinutes(SessionsSince(ss, WeekStart(today))))
  }

  /** Sums add over concatenation. */
  lemma {:induction false} SumAppend(a: seq<SessionRecord>, b: seq<SessionRecord>)
    ensures SumMinutes(a + b) == SumMinutes(a) + SumMinutes(b)
  {
    if a != [] {
      SumAppend(a[1..], b);
      assert (a + b)[1..] == a[1..] + b;
    } else {
      assert a + b == b;
    }
  }

  /** The day query of a concatenation is the concatenation of the day
      queries. */
  lemma {:induction false} ForDateAppend(a: seq<SessionRecord>, b: seq<SessionRecord>, day: int)
    ensures SessionsForDate(a + b, day) == SessionsForDate(a, day) + SessionsForDate(b, day)
  {
    if a == [] {
      assert a + b == b;
    } else {
      var ab := a + b;
      assert ab[0] == a[0] && ab[1..] == a[1..] + b;
      ForDateAppend(a[1..], b, day);
      var head := if DayOf(a[0].startTime) == day then [a[0]] else [];
      assert SessionsForDate(ab, day) == head + SessionsForDate(a[1..] + b, day);
      assert SessionsForDate(a, day) == head + SessionsForDate(a[1..], day);
    }
  }

  /** Adding a session adds its duration to the day's sum exactly when it
      starts on that day. */
  lemma AddedSessionToday(ss: seq<SessionRecord>, s: SessionRecord, day: int)
    ensures SumMinutes(SessionsForDate(ss + [s], day)) ==
              SumMinutes(SessionsForDate(ss, day)) + (if DayOf(s.startTime) == day then s.durationMinutes as int else 0)
  {
    ForDateAppend(ss, [s], day);
    assert [s][1..] == [];
    SumAppend(SessionsForDate(ss, day), SessionsForDate([s], day));
  }

  /** Every session of today is counted in this week. */
  lemma TodayWithinWeek(ss: seq<SessionRecord>, today: int)
    ensures forall s :: s in SessionsForDate(ss, today) ==> s in SessionsSince(ss, WeekStart(today))
  {
  }

  /** The weekly query has no upper bound: a session starting on a later
      day, even in a later week, is counted too. */
  lemma LaterSessionsCountThisWeek(ss: seq<SessionRecord>, s: SessionRecord, today: int)
    requires s in ss && DayOf(s.startTime) > today
    ensures s in SessionsSince(ss, WeekStart(today))
  {
  }

  /** With no session after today, the weekly query holds exactly the
      sessions from Monday through today, at most seven days. */
  lemma WeekWithoutFutureSessions(ss: seq<SessionRecord>, today: int)
    requires forall s :: s in ss ==> DayOf(s.startTime) <= today
    ensures forall s :: s in SessionsSince(ss, WeekStart(today)) ==>
              today - 6 <= DayOf(s.startTime) <= today
  {
  }
}
