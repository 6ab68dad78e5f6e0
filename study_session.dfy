/** `StudySession`: one timed session as the model class defines it, with
    the duration derived from its start and end. Date-times are whole
    seconds on the local time line. */
module StudySessions {
  import opened Wrappers
  import opened JavaInt
  import opened Strings

  /** `(int) Duration.between(start, end).toMinutes()`: whole minutes,
      truncated toward zero, then narrowed to `int`. */
  function MinutesBetween(start: int, end: int): (minutes: Int32)
    ensures start <= end && (end - start) / 60 <= INT_MAX ==>
              0 <= minutes && minutes * 60 <= end - start < (minutes + 1) * 60
    ensures end <= start && (start - end) / 60 <= INT_MAX ==>
              minutes <= 0 && -(minutes as int) * 60 <= start - end < (-(minutes as int) + 1) * 60
  {
    Wrap32(Quot(end - start, 60))
  }

  /** Ending a session `d` minutes after its start gives a duration of `d`
      minutes back. */
  lemma MinutesBetweenWhole(start: int, d: Int32)
    ensures MinutesBetween(start, start + d * 60) == d
  {
    if d >= 0 {
      assert (d * 60) / 60 == d;
    } else {
      assert (-(d * 60)) / 60 == -(d as int);
    }
  }

  /** `getDurationFormatted`: `"%dh %dm"` with Java's truncating `/` and `%`
      when there is at least one whole hour, `"%dm"` otherwise. A
      non-negative duration reads back from its text, which shows hours
      exactly when it is an hour or more; since the reading takes at most
      59 minutes after the hours, the two numbers shown are the whole hours
      and the minutes left over. */
  function DurationFormatted(durationMinutes: Int32): (text: string)
    ensures EndsWith(text, "m")
    ensures durationMinutes >= 0 ==> ReadDuration(text) == Some(durationMinutes as int)
    ensures durationMinutes >= 0 ==> ('h' in text <==> durationMinutes >= 60)
  {
    var text := HoursMinutesText(Quot(durationMinutes, 60), Rem(durationMinutes, 60));
    assert durationMinutes >= 0 ==>
      ReadDuration(text) == Some(durationMinutes as int) && ('h' in text <==> durationMinutes >= 60) by {
      if durationMinutes >= 0 {
        assert Quot(durationMinutes, 60) == durationMinutes / 60;
        assert Rem(durationMinutes, 60) == durationMinutes % 60;
        HoursMinutesTextReads(durationMinutes as nat);
      }
    }
    text
  }

  /** The text for a split into hours and minutes. */
  function HoursMinutesText(hours: int, minutes: int): string {
    if hours > 0 then IntToString(hours) + "h " + IntToString(minutes) + "m"
    else IntToString(minutes) + "m"
  }

  /** The text of `d / 60` hours and `d % 60` minutes reads back as `d`,
      and has an `h` exactly when `d` is an hour or more. */
  lemma HoursMinutesTextReads(d: nat)
    ensures ReadDuration(HoursMinutesText(d / 60, d % 60)) == Some(d)
    ensures 'h' in HoursMinutesText(d / 60, d % 60) <==> d >= 60
  {
    var hours, minutes := d / 60, d % 60;
    var text := HoursMinutesText(hours, minutes);
    if hours > 0 {
      ReadHoursMinutes(hours, minutes);
      assert text[|NatToString(hours)|] == 'h';
    } else {
      ReadMinutes(minutes);
      assert text == NatToString(minutes) + "m";
      assert forall i :: 0 <= i < |text| ==> text[i] != 'h';
    }
  }

  predicate AllDigits(s: string) {
    forall i :: 0 <= i < |s| ==> IsDigit(s[i])
  }

  /** The position of the first `ch` in `s`, or `|s|` if there is none. */
  function FirstIndex(s: string, ch: char): (r: nat)
    ensures r <= |s|
    ensures forall j :: 0 <= j < r ==> s[j] != ch
    ensures r < |s| ==> s[r] == ch
  {
    if s == [] then 0 else if s[0] == ch then 0 else 1 + FirstIndex(s[1..], ch)
  }

  /** Reads a duration text of the form `<h>h <m>m` (with `m` below 60) or
      `<m>m` back into minutes; the reading `getDurationFormatted` is meant
      for. */
  function ReadDuration(text: string): Option<int> {
    if |text| < 2 || text[|text| - 1] != 'm' then None
    else
      var body := text[..|text| - 1];
      if AllDigits(body) then Some(ParseNat(body))
      else ReadHours(body, FirstIndex(body, 'h'))
  }

  /** `<hours>h <minutes>` split at the `h` in position `i`. */
  function ReadHours(body: string, i: nat): Option<int>
    requires i <= |body|
  {
    if 0 < i && i + 2 < |body| && body[i + 1] == ' ' && AllDigits(body[..i]) && AllDigits(body[i + 2..])
       && ParseNat(body[i + 2..]) < 60
    then Some(ParseNat(body[..i]) * 60 + ParseNat(body[i + 2..]))
    else None
  }

  /** In digits followed by an `h`, the first `h` is the one after the
      digits. */
  lemma FirstIndexAfterDigits(digits: string, rest: string)
    requires AllDigits(digits) && rest != [] && rest[0] == 'h'
    ensures FirstIndex(digits + rest, 'h') == |digits|
  {
    var s := digits + rest;
    assert s[|digits|] == 'h';
    assert forall j :: 0 <= j < |digits| ==> s[j] == digits[j];
  }

  /** Splitting at `i` gives the digit strings before and after `"h "`. */
  lemma ReadHoursSplit(body: string, i: nat, hs: string, ms: string)
    requires 0 < i && i + 2 < |body| && body[i + 1] == ' '
    requires body[..i] == hs && body[i + 2..] == ms && AllDigits(hs) && AllDigits(ms)
    requires ParseNat(ms) < 60
    ensures ReadHours(body, i) == Some(ParseNat(hs) * 60 + ParseNat(ms))
  {
  }

  /** A text whose body before the final `m` is not all digits is read as
      hours and minutes. */
  lemma ReadDurationWithHours(text: string, body: string, i: nat)
    requires |text| >= 2 && text[|text| - 1] == 'm' && text[..|text| - 1] == body
    requires i < |body| && body[i] == 'h'
    ensures ReadDuration(text) == ReadHours(body, FirstIndex(body, 'h'))
  {
    assert !IsDigit(body[i]);
  }

  /** A text `<hs>h <ms>m` with digit strings `hs` and `ms` reads as
      `hs` hours and `ms` minutes. */
  lemma ReadHoursMinutesText(hs: string, ms: string)
    requires hs != [] && ms != [] && AllDigits(hs) && AllDigits(ms) && ParseNat(ms) < 60
    ensures ReadDuration(hs + "h " + ms + "m") == Some(ParseNat(hs) * 60 + ParseNat(ms))
  {
    var rest := "h " + ms;
    var body := hs + rest;
    var text := hs + "h " + ms + "m";
    assert text == body + "m";
    assert text[..|text| - 1] == body;
    var i := |hs|;
    assert body[i] == 'h' && body[i + 1] == ' ';
    ReadDurationWithHours(text, body, i);
    FirstIndexAfterDigits(hs, rest);
    assert body[..i] == hs;
    assert body[i + 2..] == ms;
    ReadHoursSplit(body, i, hs, ms);
  }

  /** `<h>h <m>m` reads back as `h` hours and `m` minutes. */
  lemma ReadHoursMinutes(h: nat, m: nat)
    requires h > 0 && m < 60
    ensures ReadDuration(NatToString(h) + "h " + NatToString(m) + "m") == Some(h * 60 + m)
  {
    ParseNatToString(h);
    ParseNatToString(m);
    ReadHoursMinutesText(NatToString(h), NatToString(m));
  }

  /** `<m>m` reads back as `m` minutes. */
  lemma ReadMinutes(m: nat)
    ensures ReadDuration(NatToString(m) + "m") == Some(m)
  {
    var text := NatToString(m) + "m";
    assert text[..|text| - 1] == NatToString(m);
    ParseNatToString(m);
  }

  /** A negative duration of an hour or more loses its hours in the text:
      Java's `/` rounds -90 / 60 to -1, which the `hours > 0` test rejects,
      and `%` keeps the sign, so -90 minutes prints as "-30m". */
  lemma NegativeDurationLosesHours()
    ensures DurationFormatted(-90) == "-30m"
    ensures ReadDuration(DurationFormatted(-90)) == None
  {
    assert Quot(-90, 60) == -1 && Rem(-90, 60) == -30;
    assert NatToString(30) == NatToString(3) + [DigitChar(0)];
    var text := DurationFormatted(-90);
    var body := text[..|text| - 1];
    assert body == "-30";
    assert !IsDigit(body[0]);
    assert FirstIndex(body, 'h') == 3;
  }

  /** The examples of the duration text: 90 minutes is "1h 30m", 45 is
      "45m". */
  lemma DurationExamples()
    ensures DurationFormatted(90) == "1h 30m"
    ensures DurationFormatted(45) == "45m"
  {
    HourExample();
    MinuteExample();
  }

  lemma HourExample()
    ensures DurationFormatted(90) == "1h 30m"
  {
    assert Quot(90, 60) == 1 && Rem(90, 60) == 30;
    HourText();
  }

  lemma MinuteExample()
    ensures DurationFormatted(45) == "45m"
  {
    assert Quot(45, 60) == 0 && Rem(45, 60) == 45;
    MinuteText();
  }

  lemma HourText()
    ensures HoursMinutesText(1, 30) == "1h 30m"
  {
    assert NatToString(30) == NatToString(3) + [DigitChar(0)];
    assert IntToString(1) == "1" && IntToString(30) == "30";
  }

  lemma MinuteText()
    ensures HoursMinutesText(0, 45) == "45m"
  {
    assert NatToString(45) == NatToString(4) + [DigitChar(5)];
    assert IntToString(45) == "45";
  }

  /** The subject as `toString` shows it. */
  function ShownSubject(subject: Option<string>): string {
    if subject.Some? then subject.value else "Study Session"
  }

  /** `toString` around the formatted start date: the date, " - ", the
      subject (or "Study Session" when there is none), then the duration
      text in parentheses. */
  function SessionText(formattedDate: string, subject: Option<string>, durationMinutes: Int32): (text: string)
    ensures StartsWith(text, formattedDate + " - " + ShownSubject(subject) + " (")
    ensures EndsWith(text, DurationFormatted(durationMinutes) + ")")
    ensures |text| == |formattedDate + " - " + ShownSubject(subject) + " ("| + |DurationFormatted(durationMinutes) + ")"|
  {
    var head, tail := formattedDate + " - " + ShownSubject(subject) + " (", DurationFormatted(durationMinutes) + ")";
    assert (head + tail)[..|head|] == head;
    assert (head + tail)[|head|..] == tail;
    head + tail
  }

  class StudySession {
    var id: Option<string>
    var startTime: int
    var endTime: Option<int>
    var durationMinutes: Int32
    var subject: Option<string>
    var notes: Option<string>

    /** A session with the generated identifier `id` starting at `now`:
        no end, duration 0, no subject or notes. */
    constructor (id: string, now: int)
      ensures this.id == Some(id) && startTime == now && endTime == None
      ensures durationMinutes == 0 && subject == None && notes == None
    {
      this.id := Some(id);
      startTime := now;
      endTime := None;
      durationMinutes := 0;
      subject := None;
      notes := None;
    }

    /** `StudySession(durationMinutes, subject)`: starts at `now` and ends
        exactly `durationMinutes` later, so the derived duration agrees with
        the stored one. */
    constructor WithDuration(id: string, now: int, durationMinutes: Int32, subject: Option<string>)
      ensures this.id == Some(id) && startTime == now && endTime == Some(now + durationMinutes * 60)
      ensures this.durationMinutes == durationMinutes && MinutesBetween(startTime, endTime.value) == durationMinutes
      ensures this.subject == subject && notes == None
    {
      this.id := Some(id);
      startTime := now;
      this.durationMinutes := durationMinutes;
      this.subject := subject;
      endTime := Some(now + durationMinutes * 60);
      notes := None;
      MinutesBetweenWhole(now, durationMinutes);
    }

    /** `StudySession(startTime, endTime, subject, notes)`: the duration is
        derived from the two times. */
    constructor Between(id: string, start: int, end: int, subject: Option<string>, notes: Option<string>)
      ensures this.id == Some(id) && startTime == start && endTime == Some(end)
      ensures durationMinutes == MinutesBetween(start, end)
      ensures this.subject == subject && this.notes == notes
    {
      this.id := Some(id);
      startTime := start;
      endTime := Some(end);
      this.subject := subject;
      this.notes := notes;
      durationMinutes := MinutesBetween(start, end);
    }

    /** Sets the end and re-derives the duration from the current start. */
    method SetEndTime(end: int)
      modifies this
      ensures endTime == Some(end) && durationMinutes == MinutesBetween(startTime, end)
      ensures startTime == old(startTime) && id == old(id)
      ensures subject == old(subject) && notes == old(notes)
    {
      endTime := Some(end);
      durationMinutes := MinutesBetween(startTime, end);
    }

    /** Moves the start only: the duration is not re-derived. */
    method SetStartTime(start: int)
      modifies this
      ensures startTime == start
      ensures endTime == old(endTime) && durationMinutes == old(durationMinutes)
      ensures id == old(id) && subject == old(subject) && notes == old(notes)
    {
      startTime := start;
    }

    /** Overrides the duration only: the times stay. */
    method SetDurationMinutes(minutes: Int32)
      modifies this
      ensures durationMinutes == minutes
      ensures startTime == old(startTime) && endTime == old(endTime)
      ensures id == old(id) && subject == old(subject) && notes == old(notes)
    {
      durationMinutes := minutes;
    }

    method SetId(id: Option<string>)
      modifies this
      ensures this.id == id
      ensures startTime == old(startTime) && endTime == old(endTime) && durationMinutes == old(durationMinutes)
      ensures subject == old(subject) && notes == old(notes)
    {
      this.id := id;
    }

    method SetSubject(subject: Option<string>)
      modifies this
      ensures this.subject == subject
      ensures startTime == old(startTime) && endTime == old(endTime) && durationMinutes == old(durationMinutes)
      ensures id == old(id) && notes == old(notes)
    {
      this.subject := subject;
    }

    method SetNotes(notes: Option<string>)
      modifies this
      ensures this.notes == notes
      ensures startTime == old(startTime) && endTime == old(endTime) && durationMinutes == old(durationMinutes)
      ensures id == old(id) && subject == old(subject)
    {
      this.notes := notes;
    }

    /** `getDurationFormatted`. */
    function DurationText(): (text: string)
      reads this
      ensures durationMinutes >= 0 ==> ReadDuration(text) == Some(durationMinutes as int)
      ensures durationMinutes >= 0 ==> ('h' in text <==> durationMinutes >= 60)
    {
      DurationFormatted(durationMinutes)
    }

    /** `toString`, given `getFormattedDate()`'s text for the start. */
    function ToString(formattedDate: string): (text: string)
      reads this
      ensures StartsWith(text, formattedDate + " - " + ShownSubject(subject) + " (")
      ensures EndsWith(text, DurationFormatted(durationMinutes) + ")")
      ensures |text| == |formattedDate + " - " + ShownSubject(subject) + " ("| + |DurationFormatted(durationMinutes) + ")"|
    {
      SessionText(formattedDate, subject, durationMinutes)
    }
  }
}
