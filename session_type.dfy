/** `SessionType`: the two kinds of timed session and the fixed texts and
    timer defaults each one carries. */
module SessionTypes {
  import opened Wrappers
  import opened Strings

  datatype SessionType = WORK | STUDY

  function DisplayName(t: SessionType): string {
    match t
    case WORK => "Work"
    case STUDY => "Study"
  }

  function Icon(t: SessionType): string {
    match t
    case WORK => "\U{1F4BC}"
    case STUDY => "\U{1F4DA}"
  }

  function Description(t: SessionType): string {
    match t
    case WORK => "Deep work, meetings, project development"
    case STUDY => "Learning, research, exam preparation"
  }

  /** `getFullLabel`: the icon, a space, then the display name. */
  function FullLabel(t: SessionType): (text: string)
    ensures StartsWith(text, Icon(t) + " ")
    ensures EndsWith(text, DisplayName(t))
    ensures |text| == |Icon(t)| + 1 + |DisplayName(t)|
  {
    Icon(t) + " " + DisplayName(t)
  }

  /** `getDefaultWorkDuration`, in minutes: within the 1..180 minutes a
      configuration accepts for work. */
  function DefaultWorkDuration(t: SessionType): (minutes: nat)
    ensures 1 <= minutes <= 180
  {
    match t
    case WORK => 25
    case STUDY => 45
  }

  /** `getDefaultBreakDuration`, in minutes: within the 1..60 minutes a
      configuration accepts for a break, and shorter than the type's work
      period. */
  function DefaultBreakDuration(t: SessionType): (minutes: nat)
    ensures 1 <= minutes <= 60
    ensures minutes < DefaultWorkDuration(t)
  {
    match t
    case WORK => 5
    case STUDY => 10
  }

  /** The message shown when a work period ends (written in two pieces
      only to keep each literal short). */
  function SessionCompleteMessage(t: SessionType): (message: string)
    ensures StartsWith(message, DisplayName(t) + " session complete! ")
  {
    match t
    case WORK => "Work session complete! " + "Time for a quick break."
    case STUDY => "Study session complete! " + "Take a longer break to recharge."
  }

  /** The message shown when a break ends: a question asking whether to go
      on. */
  function BreakCompleteMessage(t: SessionType): (message: string)
    ensures StartsWith(message, "Break complete! Ready ") && EndsWith(message, "?")
  {
    var question := match t
      case WORK => "for another focused work session?"
      case STUDY => "to continue studying?";
    var message := "Break complete! Ready " + question;
    assert message[..22] == "Break complete! Ready ";
    assert message[|message| - 1..] == question[|question| - 1..];
    message
  }

  /** The enum constant's name, which `toString` returns and the session
      file stores. */
  function Name(t: SessionType): string {
    match t
    case WORK => "WORK"
    case STUDY => "STUDY"
  }

  /** `SessionType.valueOf(name)`: exact, case-sensitive match of a constant
      name; any other text throws `IllegalArgumentException`, here `None`. */
  function ValueOf(name: string): (r: Option<SessionType>)
    ensures r.Some? <==> name == "WORK" || name == "STUDY"
    ensures r.Some? ==> Name(r.value) == name
  {
    if name == "WORK" then Some(WORK)
    else if name == "STUDY" then Some(STUDY)
    else None
  }

  /** A stored name reads back as the type it was stored from. */
  lemma ValueOfName(t: SessionType)
    ensures ValueOf(Name(t)) == Some(t)
  {
  }

  /** The defaults: 25 minutes of work and 5 of break for WORK, 45 and 10
      for STUDY. */
  lemma DefaultDurations()
    ensures DefaultWorkDuration(WORK) == 25 && DefaultBreakDuration(WORK) == 5
    ensures DefaultWorkDuration(STUDY) == 45 && DefaultBreakDuration(STUDY) == 10
  {
  }

  /** Each type has its own completion and break messages, and the two
      messages of one type differ. */
  lemma MessagesPerType(t: SessionType, u: SessionType)
    ensures SessionCompleteMessage(t) == SessionCompleteMessage(u) <==> t == u
    ensures BreakCompleteMessage(t) == BreakCompleteMessage(u) <==> t == u
    ensures SessionCompleteMessage(t) != BreakCompleteMessage(u)
  {
    var w, s := SessionCompleteMessage(WORK), SessionCompleteMessage(STUDY);
    var bw, bs := BreakCompleteMessage(WORK), BreakCompleteMessage(STUDY);
    assert w[0] == 'W' && s[0] == 'S' && bw[0] == 'B' && bs[0] == 'B';
    assert bw[22] == 'f' && bs[22] == 't';
  }
}
