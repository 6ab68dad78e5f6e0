/** `TimerService`: the countdown's mode and remaining time, changed step by
    step by the buttons, and the clock text it displays. The thread that
    counts down is not part of this model. */
module Timer {
  import opened Wrappers
  import opened JavaInt
  import opened Strings

  const WORK_DURATION_MINUTES: int := 25
  const BREAK_DURATION_MINUTES: int := 5

  /** The full length of a period, in seconds. */
  function PeriodSeconds(isBreak: bool): int {
    (if isBreak then BREAK_DURATION_MINUTES else WORK_DURATION_MINUTES) * 60
  }

  /** `%02d`: at least two characters, padded with a leading zero; a
      negative number is already two characters wide from one digit on. */
  function Pad2(n: int): (r: string)
    ensures |r| >= 2
    ensures n >= 0 ==> forall i :: 0 <= i < |r| ==> IsDigit(r[i])
  {
    if 0 <= n < 10 then "0" + NatToString(n) else IntToString(n)
  }

  /** A number below 100 prints in exactly two characters. */
  lemma Pad2Width(n: int)
    ensures 0 <= n < 100 ==> |Pad2(n)| == 2
  {
    if 10 <= n < 100 {
      assert NatToString(n) == NatToString(n / 10) + [DigitChar(n % 10)];
    }
  }

  /** `formatTime`: whole minutes, a colon, then the remaining seconds, each
      as `%02d`, with Java's truncating division. A non-negative time shows
      as digits with the colon third from the end. */
  function FormatTime(totalSeconds: Int32): (text: string)
    ensures |text| >= 5
    ensures totalSeconds >= 0 ==> text[|text| - 3] == ':'
    ensures totalSeconds >= 0 ==> forall i :: 0 <= i < |text| && i != |text| - 3 ==> IsDigit(text[i])
  {
    var minutes, seconds := Pad2(Quot(totalSeconds, 60)), Pad2(Rem(totalSeconds, 60));
    Pad2Width(Rem(totalSeconds, 60));
    var text := minutes + ":" + seconds;
    assert forall i :: 0 <= i < |minutes| ==> text[i] == minutes[i];
    assert forall i :: |minutes| < i < |text| ==> text[i] == seconds[i - |minutes| - 1];
    text
  }

  /** Reading a two-digit field back gives the number it was printed from. */
  lemma Pad2ReadsBack(n: nat)
    ensures ParseNat(Pad2(n)) == n
  {
    ParseNatToString(n);
    if n < 10 {
      var p := Pad2(n);
      assert p[..1] == "0" && p[1] == NatToString(n)[0];
      assert ParseNat(NatToString(n)) == DigitValue(NatToString(n)[0]);
    }
  }

  /** The display of a non-negative time is `mm:ss` (more minute digits
      past 99 minutes): its last two characters are the seconds, and the
      characters before the colon read back as the minutes, so the display
      determines the time. */
  lemma {:induction false} FormatTimeReadsBack(s: Int32)
    requires s >= 0
    ensures var text := FormatTime(s);
      ParseNat(text[..|text| - 3]) == s / 60 && ParseNat(text[|text| - 2..]) == s % 60
  {
    var m, sec := s / 60, s % 60;
    assert Quot(s, 60) == m && Rem(s, 60) == sec;
    var text := FormatTime(s);
    var left := if m < 10 then "0" + NatToString(m) else NatToString(m);
    assert Pad2(m) == left;
    assert text == left + ":" + Pad2(sec);
    if sec >= 10 {
      assert NatToString(sec) == NatToString(sec / 10) + [DigitChar(sec % 10)];
    }
    assert |Pad2(sec)| == 2;
    assert text[..|text| - 3] == left;
    assert text[|text| - 2..] == Pad2(sec);
    Pad2ReadsBack(sec);
    if m < 10 {
      Pad2ReadsBack(m);
    } else {
      ParseNatToString(m);
    }
  }

  /** The two periods' displays. */
  lemma PeriodDisplays()
    ensures FormatTime(PeriodSeconds(false)) == "25:00"
    ensures FormatTime(PeriodSeconds(true)) == "05:00"
  {
    assert Quot(1500, 60) == 25 && Rem(1500, 60) == 0;
    assert Quot(300, 60) == 5 && Rem(300, 60) == 0;
    assert NatToString(25) == NatToString(2) + [DigitChar(5)];
  }

  class TimerService {
    var remainingSeconds: Int32
    var isRunning: bool
    var isBreak: bool
    /** When the countdown was last started (`LocalDateTime.now()`). */
    var startTime: Option<int>

    /** A stopped work period of 25 minutes. */
    constructor ()
      ensures remainingSeconds == 1500 && !isRunning && !isBreak
      ensures startTime == None
    {
      remainingSeconds := WORK_DURATION_MINUTES * 60;
      isRunning := false;
      isBreak := false;
      startTime := None;
    }

    /** Starts the countdown unless it is already running; only a start
        from rest records the start time `now`. */
    method Start(now: int)
      modifies this
      ensures isRunning
      ensures remainingSeconds == old(remainingSeconds) && isBreak == old(isBreak)
      ensures startTime == if old(isRunning) then old(startTime) else Some(now)
    {
      if !isRunning {
        isRunning := true;
        startTime := Some(now);
      }
    }

    /** Stops the countdown where it is. */
    method Pause()
      modifies this
      ensures !isRunning
      ensures remainingSeconds == old(remainingSeconds) && isBreak == old(isBreak)
      ensures startTime == old(startTime)
    {
      isRunning := false;
    }

    /** Stops and refills the current period. */
    method Reset()
      modifies this
      ensures !isRunning && isBreak == old(isBreak)
      ensures remainingSeconds == PeriodSeconds(isBreak)
      ensures startTime == old(startTime)
    {
      Pause();
      var duration := if isBreak then BREAK_DURATION_MINUTES else WORK_DURATION_MINUTES;
      remainingSeconds := duration * 60;
    }

    /** Stops and enters a full 5-minute break. */
    method SwitchToBreak()
      modifies this
      ensures !isRunning && isBreak && remainingSeconds == PeriodSeconds(true)
      ensures startTime == old(startTime)
    {
      Pause();
      isBreak := true;
      remainingSeconds := BREAK_DURATION_MINUTES * 60;
    }

    /** Stops and enters a full 25-minute work period. */
    method SwitchToWork()
      modifies this
      ensures !isRunning && !isBreak && remainingSeconds == PeriodSeconds(false)
      ensures startTime == old(startTime)
    {
      Pause();
      isBreak := false;
      remainingSeconds := WORK_DURATION_MINUTES * 60;
    }

    /** `getWorkDurationMinutes`. */
    function WorkDurationMinutes(): (minutes: int)
      ensures minutes * 60 == PeriodSeconds(false)
    {
      WORK_DURATION_MINUTES
    }

    /** `getBreakDurationMinutes`. */
    function BreakDurationMinutes(): (minutes: int)
      ensures minutes * 60 == PeriodSeconds(true)
    {
      BREAK_DURATION_MINUTES
    }
  }

  /** A second start leaves the state the first one made. */
  method StartTwice(t: TimerService, now1: int, now2: int)
    modifies t
    ensures t.isRunning && t.startTime == (if old(t.isRunning) then old(t.startTime) else Some(now1))
    ensures t.remainingSeconds == old(t.remainingSeconds) && t.isBreak == old(t.isBreak)
  {
    t.Start(now1);
    t.Start(now2);
  }

  /** Switching into a mode twice is switching once. */
  method SwitchTwice(t: TimerService, toBreak: bool)
    modifies t
    ensures !t.isRunning && t.isBreak == toBreak && t.remainingSeconds == PeriodSeconds(toBreak)
  {
    if toBreak {
      t.SwitchToBreak();
      t.SwitchToBreak();
    } else {
      t.SwitchToWork();
      t.SwitchToWork();
    }
  }
}
