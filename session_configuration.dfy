/** `SessionConfiguration`: the timer settings of one session type, whose
    duration setters clamp what they are given. */
module SessionConfigurations {
  import opened Wrappers
  import opened JavaInt
  import opened SessionTypes

  const MIN_MINUTES: int := 1
  const MAX_WORK_MINUTES: int := 180
  const MAX_BREAK_MINUTES: int := 60

  /** `Math.max(1, Math.min(hi, v))`. */
  function Clamp(v: int, hi: int): (r: int)
    requires MIN_MINUTES <= hi
    ensures MIN_MINUTES <= r <= hi
    ensures MIN_MINUTES <= v <= hi ==> r == v
    ensures v < MIN_MINUTES ==> r == MIN_MINUTES
    ensures v > hi ==> r == hi
  {
    if v > hi then hi else if v < MIN_MINUTES then MIN_MINUTES else v
  }

  /** Clamping twice is clamping once. */
  lemma ClampIdempotent(v: int, hi: int)
    requires MIN_MINUTES <= hi
    ensures Clamp(Clamp(v, hi), hi) == Clamp(v, hi)
  {
  }

  /** Every type's defaults lie inside the ranges the setters clamp to, so
      a configuration that starts from them, or is reset to them, holds
      values a setter could have stored. */
  lemma DefaultsInRange(t: SessionType)
    ensures Clamp(DefaultWorkDuration(t), MAX_WORK_MINUTES) == DefaultWorkDuration(t)
    ensures Clamp(DefaultBreakDuration(t), MAX_BREAK_MINUTES) == DefaultBreakDuration(t)
  {
  }

  class SessionConfiguration {
    var sessionType: SessionType
    var workDurationMinutes: Int32
    var breakDurationMinutes: Int32
    var autoStartBreaks: bool
    var autoStartWork: bool
    var defaultProjectName: Option<string>

    /** Both durations lie in their clamp ranges. */
    ghost predicate Valid()
      reads this
    {
      && MIN_MINUTES <= workDurationMinutes <= MAX_WORK_MINUTES
      && MIN_MINUTES <= breakDurationMinutes <= MAX_BREAK_MINUTES
    }

    /** A configuration holding `sessionType`'s defaults, with both
        automatic starts on and an empty project name. */
    constructor (sessionType: SessionType)
      ensures Valid()
      ensures this.sessionType == sessionType
      ensures workDurationMinutes == DefaultWorkDuration(sessionType)
      ensures breakDurationMinutes == DefaultBreakDuration(sessionType)
      ensures autoStartBreaks && autoStartWork
      ensures defaultProjectName == Some("")
    {
      this.sessionType := sessionType;
      workDurationMinutes := DefaultWorkDuration(sessionType);
      breakDurationMinutes := DefaultBreakDuration(sessionType);
      autoStartBreaks := true;
      autoStartWork := true;
      defaultProjectName := Some("");
    }

    /** Changes the type only: the durations keep their values. */
    method SetSessionType(t: SessionType)
      modifies this
      ensures sessionType == t
      ensures workDurationMinutes == old(workDurationMinutes)
      ensures breakDurationMinutes == old(breakDurationMinutes)
      ensures autoStartBreaks == old(autoStartBreaks) && autoStartWork == old(autoStartWork)
      ensures defaultProjectName == old(defaultProjectName)
    {
      sessionType := t;
    }

    /** Stores `minutes` clamped to 1..180. */
    method SetWorkDurationMinutes(minutes: Int32)
      requires Valid()
      modifies this
      ensures Valid()
      ensures workDurationMinutes == Clamp(minutes, MAX_WORK_MINUTES)
      ensures MIN_MINUTES <= minutes <= MAX_WORK_MINUTES ==> workDurationMinutes == minutes
      ensures sessionType == old(sessionType) && breakDurationMinutes == old(breakDurationMinutes)
      ensures autoStartBreaks == old(autoStartBreaks) && autoStartWork == old(autoStartWork)
      ensures defaultProjectName == old(defaultProjectName)
    {
      workDurationMinutes := if minutes > MAX_WORK_MINUTES then MAX_WORK_MINUTES
                             else if minutes < MIN_MINUTES then MIN_MINUTES
                             else minutes;
    }

    /** Stores `minutes` clamped to 1..60. */
    method SetBreakDurationMinutes(minutes: Int32)
      requires Valid()
      modifies this
      ensures Valid()
      ensures breakDurationMinutes == Clamp(minutes, MAX_BREAK_MINUTES)
      ensures MIN_MINUTES <= minutes <= MAX_BREAK_MINUTES ==> breakDurationMinutes == minutes
      ensures sessionType == old(sessionType) && workDurationMinutes == old(workDurationMinutes)
      ensures autoStartBreaks == old(autoStartBreaks) && autoStartWork == old(autoStartWork)
      ensures defaultProjectName == old(defaultProjectName)
    {
      breakDurationMinutes := if minutes > MAX_BREAK_MINUTES then MAX_BREAK_MINUTES
                              else if minutes < MIN_MINUTES then MIN_MINUTES
                              else minutes;
    }

    method SetAutoStartBreaks(on: bool)
      modifies this
      ensures autoStartBreaks == on
      ensures sessionType == old(sessionType) && autoStartWork == old(autoStartWork)
      ensures workDurationMinutes == old(workDurationMinutes) && breakDurationMinutes == old(breakDurationMinutes)
      ensures defaultProjectName == old(defaultProjectName)
    {
      autoStartBreaks := on;
    }

    method SetAutoStartWork(on: bool)
      modifies this
      ensures autoStartWork == on
      ensures sessionType == old(sessionType) && autoStartBreaks == old(autoStartBreaks)
      ensures workDurationMinutes == old(workDurationMinutes) && breakDurationMinutes == old(breakDurationMinutes)
      ensures defaultProjectName == old(defaultProjectName)
    {
      autoStartWork := on;
    }

    method SetDefaultProjectName(name: Option<string>)
      modifies this
      ensures defaultProjectName == name
      ensures sessionType == old(sessionType)
      ensures autoStartBreaks == old(autoStartBreaks) && autoStartWork == old(autoStartWork)
      ensures workDurationMinutes == old(workDurationMinutes) && breakDurationMinutes == old(breakDurationMinutes)
    {
      defaultProjectName := name;
    }

    /** Back to the current type's durations with both automatic starts on;
        the type and the project name stay. */
    method ResetToDefaults()
      modifies this
      ensures Valid()
      ensures workDurationMinutes == DefaultWorkDuration(sessionType)
      ensures breakDurationMinutes == DefaultBreakDuration(sessionType)
      ensures autoStartBreaks && autoStartWork
      ensures sessionType == old(sessionType) && defaultProjectName == old(defaultProjectName)
    {
      workDurationMinutes := DefaultWorkDuration(sessionType);
      breakDurationMinutes := DefaultBreakDuration(sessionType);
      autoStartBreaks := true;
      autoStartWork := true;
    }
  }
}
