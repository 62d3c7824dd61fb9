/** The Pomodoro timer of the focus page: three modes with fixed durations, a
    running flag, a one-second tick and a completion step that counts finished
    focus sessions; plus the `mm:ss` display and the break counter. The
    scheduling of ticks by the browser is not modelled: a tick is one call. */
module FocusTimer {

  datatype Mode = Focus | ShortBreak | LongBreak

  /** `timerModes[mode].duration`, in seconds. */
  function Duration(m: Mode): (d: nat)
    ensures d > 0
  {
    match m
    case Focus => 25 * 60
    case ShortBreak => 5 * 60
    case LongBreak => 15 * 60
  }

  /** The focus page's timer state. */
  class Timer {
    var mode: Mode
    var timeLeft: int
    var isRunning: bool
    var sessionsCompleted: int
    var totalFocusTime: int  // minutes

    /** The time left never leaves the current mode's range, and the session
        counter never goes below zero. */
    ghost predicate Valid()
      reads this
    {
      0 <= timeLeft <= Duration(mode) && sessionsCompleted >= 0
    }

    /** The page's initial state. */
    constructor ()
      ensures Valid()
      ensures mode == Focus && timeLeft == 1500 && !isRunning
      ensures sessionsCompleted == 0 && totalFocusTime == 165
    {
      mode := Focus;
      timeLeft := Duration(Focus);
      isRunning := false;
      sessionsCompleted := 0;
      totalFocusTime := 165;
    }

    /** `handleModeChange`: switches mode, refills the time and stops the timer. */
    method ChangeMode(newMode: Mode)
      requires Valid()
      modifies this
      ensures Valid()
      ensures mode == newMode && timeLeft == Duration(newMode) && !isRunning
      ensures sessionsCompleted == old(sessionsCompleted) && totalFocusTime == old(totalFocusTime)
    {
      mode := newMode;
      timeLeft := Duration(newMode);
      isRunning := false;
    }

    /** `toggleTimer`: flips the running flag and nothing else. */
    method Toggle()
      requires Valid()
      modifies this
      ensures Valid()
      ensures isRunning == !old(isRunning)
      ensures mode == old(mode) && timeLeft == old(timeLeft)
      ensures sessionsCompleted == old(sessionsCompleted) && totalFocusTime == old(totalFocusTime)
    {
      isRunning := !isRunning;
    }

    /** `resetTimer`: refills the current mode's time and stops the timer. */
    method Reset()
      requires Valid()
      modifies this
      ensures Valid()
      ensures mode == old(mode) && timeLeft == Duration(mode) && !isRunning
      ensures sessionsCompleted == old(sessionsCompleted) && totalFocusTime == old(totalFocusTime)
    {
      timeLeft := Duration(mode);
      isRunning := false;
    }

    /** One firing of the one-second interval, which exists only while the timer
        runs with time left: the time drops by exactly one second. */
    method Tick()
      requires Valid()
      modifies this
      ensures Valid()
      ensures old(isRunning) && old(timeLeft) > 0 ==> timeLeft == old(timeLeft) - 1
      ensures !(old(isRunning) && old(timeLeft) > 0) ==> timeLeft == old(timeLeft)
      ensures mode == old(mode) && isRunning == old(isRunning)
      ensures sessionsCompleted == old(sessionsCompleted) && totalFocusTime == old(totalFocusTime)
    {
      if isRunning && timeLeft > 0 {
        timeLeft := timeLeft - 1;
      }
    }

    /** The effect's branch for a finished countdown (it tests only that no time
        is left): stops the timer and, in focus mode, counts one session and
        25 minutes of focus. */
    method Complete()
      requires Valid()
      modifies this
      ensures Valid()
      ensures old(timeLeft) == 0 ==> !isRunning
      ensures old(timeLeft) == 0 && old(mode) == Focus ==>
        sessionsCompleted == old(sessionsCompleted) + 1 && totalFocusTime == old(totalFocusTime) + 25
      ensures old(timeLeft) == 0 && old(mode) != Focus ==>
        sessionsCompleted == old(sessionsCompleted) && totalFocusTime == old(totalFocusTime)
      ensures old(timeLeft) != 0 ==>
        (isRunning == old(isRunning) && sessionsCompleted == old(sessionsCompleted)
         && totalFocusTime == old(totalFocusTime))
      ensures mode == old(mode) && timeLeft == old(timeLeft)
    {
      if timeLeft == 0 {
        isRunning := false;
        if mode == Focus {
          sessionsCompleted := sessionsCompleted + 1;
          totalFocusTime := totalFocusTime + Duration(Focus) / 60;
        }
      }
    }

    /** A full focus countdown as the page runs it: started at 1500 seconds,
        1500 ticks bring the time to zero; that change runs the effect, whose
        completion branch stops the timer; stopping it changes `isRunning`, one
        of the effect's dependencies, so the effect runs once more, finds no
        time left again and counts a second session. */
    method RunFocusSession()
      requires Valid()
      modifies this
      ensures Valid()
      ensures mode == Focus && timeLeft == 0 && !isRunning
      ensures sessionsCompleted == old(sessionsCompleted) + 2 && totalFocusTime == old(totalFocusTime) + 50
    {
      Countdown();
      var before := (isRunning, timeLeft, mode);
      Complete();
      if (isRunning, timeLeft, mode) != before {
        Complete();
      }
    }

    /** Starts a fresh focus countdown and ticks it down to zero. */
    method Countdown()
      requires Valid()
      modifies this
      ensures Valid()
      ensures mode == Focus && timeLeft == 0 && isRunning
      ensures sessionsCompleted == old(sessionsCompleted) && totalFocusTime == old(totalFocusTime)
    {
      ChangeMode(Focus);
      Toggle();
      var n := 0;
      while n < Duration(Focus)
        invariant Valid() && mode == Focus && isRunning
        invariant 0 <= n <= Duration(Focus) && timeLeft == Duration(Focus) - n
        invariant sessionsCompleted == old(sessionsCompleted) && totalFocusTime == old(totalFocusTime)
      {
        Tick();
        n := n + 1;
      }
    }

    /** The completion branch as evidently intended: it fires only while the
        timer still runs, so the effect's re-run after stopping counts nothing. */
    method CompleteRunning()
      requires Valid()
      modifies this
      ensures Valid()
      ensures old(timeLeft) == 0 && old(isRunning) ==> !isRunning
      ensures old(timeLeft) == 0 && old(isRunning) && old(mode) == Focus ==>
        sessionsCompleted == old(sessionsCompleted) + 1 && totalFocusTime == old(totalFocusTime) + 25
      ensures !(old(timeLeft) == 0 && old(isRunning) && old(mode) == Focus) ==>
        sessionsCompleted == old(sessionsCompleted) && totalFocusTime == old(totalFocusTime)
      ensures !(old(timeLeft) == 0 && old(isRunning)) ==> isRunning == old(isRunning)
      ensures mode == old(mode) && timeLeft == old(timeLeft)
    {
      if timeLeft == 0 && isRunning {
        isRunning := false;
        if mode == Focus {
          sessionsCompleted := sessionsCompleted + 1;
          totalFocusTime := totalFocusTime + Duration(Focus) / 60;
        }
      }
    }

    /** The same countdown and effect re-run with the guarded completion branch:
        one finished focus period counts exactly one session and 25 minutes. */
    method RunFocusSessionOnce()
      requires Valid()
      modifies this
      ensures Valid()
      ensures mode == Focus && timeLeft == 0 && !isRunning
      ensures sessionsCompleted == old(sessionsCompleted) + 1 && totalFocusTime == old(totalFocusTime) + 25
    {
      Countdown();
      var before := (isRunning, timeLeft, mode);
      CompleteRunning();
      if (isRunning, timeLeft, mode) != before {
        CompleteRunning();
      }
    }
  }

  // ---------------------------------------------------------------------------
  // Display

  function DigitChar(d: nat): char
    requires d < 10
  {
    ('0' as int + d) as char
  }

  /** `n.toString()` for a natural number. */
  function NatToString(n: nat): (s: string)
    ensures |s| >= 1
    ensures n < 10 ==> |s| == 1
    ensures 10 <= n < 100 ==> |s| == 2
    decreases n
  {
    if n < 10 then [DigitChar(n)] else NatToString(n / 10) + [DigitChar(n % 10)]
  }

  /** `s.padStart(2, '0')`. */
  function PadStart2(s: string): string
  {
    if |s| >= 2 then s else seq(2 - |s|, _ => '0') + s
  }

  /** `formatTime`: minutes and seconds, each padded to two digits, joined by ':'. */
  function FormatTime(seconds: nat): string
  {
    PadStart2(NatToString(seconds / 60)) + ":" + PadStart2(NatToString(seconds % 60))
  }

  /** The value of a decimal digit. */
  function DigitValue(c: char): int
  {
    c as int - '0' as int
  }

  predicate IsDigit(c: char)
  {
    '0' <= c <= '9'
  }

  /** A number below 100, as `formatTime` shows it, is its two decimal digits. */
  lemma TwoDigits(n: nat)
    requires n < 100
    ensures PadStart2(NatToString(n)) == [DigitChar(n / 10), DigitChar(n % 10)]
  {
    if n < 10 {
      assert NatToString(n) == [DigitChar(n)];
      assert DigitChar(0) == '0';
    } else {
      assert NatToString(n / 10) == [DigitChar(n / 10)];
    }
  }

  /** Below 100 minutes the display is `mm:ss`: five characters, ':' in the
      middle, and the two fields read back as the minutes and seconds. */
  lemma FormatTimeShape(seconds: nat)
    requires seconds < 6000
    ensures var r := FormatTime(seconds);
      && |r| == 5 && r[2] == ':'
      && IsDigit(r[0]) && IsDigit(r[1]) && IsDigit(r[3]) && IsDigit(r[4])
      && var mm := 10 * DigitValue(r[0]) + DigitValue(r[1]);
         var ss := 10 * DigitValue(r[3]) + DigitValue(r[4]);
         60 * mm + ss == seconds && ss < 60
  {
    TwoDigits(seconds / 60);
    TwoDigits(seconds % 60);
  }

  /** The "Breaks" figure: `Math.floor(sessionsCompleted / 2)`. */
  function BreakCount(sessionsCompleted: nat): (b: nat)
    ensures 2 * b <= sessionsCompleted < 2 * b + 2
  {
    sessionsCompleted / 2
  }
}
