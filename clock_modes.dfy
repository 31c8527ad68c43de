/**
  The countdown face (`TimerMode`). Its state is the number of seconds left and
  whether it is running. The one-second interval and the React effect that
  reacts to `[isActive, timeLeft]` become explicit events: `Tick` is one firing
  of the interval, and every event ends by running the effect (`Settle`), which
  switches the timer off once `timeLeft` is zero.
*/
module ClockModes {
  import opened Types
  import opened Digits

  datatype Countdown = Countdown(timeLeft: nat, isActive: bool)

  /** The state in which the minute input is shown. */
  const Idle := Countdown(0, false)

  /** What holds between events: a running timer always has time left. */
  predicate Stable(c: Countdown) {
    c.isActive ==> c.timeLeft > 0
  }

  /**
    The `[isActive, timeLeft]` effect. While running with time left it arms the
    interval (no state change); otherwise, at zero, it stops the timer.
  */
  function Settle(c: Countdown): (r: Countdown)
    ensures Stable(r) && r.timeLeft == c.timeLeft
    ensures Stable(c) ==> r == c
  {
    if c.isActive && c.timeLeft > 0 then c
    else if c.timeLeft == 0 then c.(isActive := false)
    else c
  }

  /**
    `parseInt(inputMinutes || '0')` on a field of decimal digits: the empty field
    reads as 0, a numeral reads as its number (also after leading zeros), and the result is 0 exactly when
    every digit is `'0'`.
  */
  function Minutes(text: string): (m: nat)
    requires AllDigits(text)
    ensures text == [] ==> m == 0
    ensures forall k: nat :: text == NatToString(k) ==> m == k
    ensures forall z: nat, k: nat :: text == Repeat('0', z) + NatToString(k) ==> m == k
    ensures m == 0 <==> forall i :: 0 <= i < |text| ==> text[i] == '0'
  {
    NumeralValue(text);
    PaddedNumeralValue(text);
    ZeroNumeral(text);
    DigitsValue(if text == [] then "0" else text)
  }

  /** `toggleTimer` followed by the effect: seed from the minute field when idle, then flip `isActive`. */
  function ToggleStep(c: Countdown, minutes: nat): (r: Countdown)
    ensures Stable(r)
    ensures c.timeLeft == 0 && !c.isActive ==>
              r == if minutes == 0 then Idle else Countdown(60 * minutes, true)
    ensures c.isActive ==> r.timeLeft == c.timeLeft && !r.isActive
    ensures !c.isActive && c.timeLeft > 0 ==> r == Countdown(c.timeLeft, true)
  {
    var seeded := if c.timeLeft == 0 && !c.isActive then c.(timeLeft := 60 * minutes) else c;
    Settle(seeded.(isActive := !c.isActive))
  }

  /** One firing of the interval followed by the effect; no interval is armed unless running with time left. */
  function TickStep(c: Countdown): (r: Countdown)
    ensures c.isActive && c.timeLeft > 0 ==>
              r.timeLeft == c.timeLeft - 1 && (r.isActive <==> r.timeLeft > 0)
    ensures !(c.isActive && c.timeLeft > 0) ==> r == c
    ensures Stable(c) ==> Stable(r)
  {
    if c.isActive && c.timeLeft > 0 then Settle(c.(timeLeft := c.timeLeft - 1)) else c
  }

  /** `n` successive firings of the interval. */
  function Ticks(c: Countdown, n: nat): Countdown
    decreases n
  {
    if n == 0 then c else Ticks(TickStep(c), n - 1)
  }

  /** Once idle, further ticks change nothing. */
  lemma {:induction false} IdleAbsorbsTicks(n: nat)
    ensures Ticks(Idle, n) == Idle
  {
    if n > 0 {
      IdleAbsorbsTicks(n - 1);
    }
  }

  /** A running timer with `k` seconds counts down one second per tick and stops exactly at zero. */
  lemma {:induction false} RunsDown(k: nat, n: nat)
    requires 0 < k && n <= k
    ensures Ticks(Countdown(k, true), n) == Countdown(k - n, n < k)
  {
    if n > 0 {
      if k == 1 {
        assert TickStep(Countdown(k, true)) == Idle;
      } else {
        assert TickStep(Countdown(k, true)) == Countdown(k - 1, true);
        RunsDown(k - 1, n - 1);
      }
    }
  }

  /**
    Starting from idle with `m` minutes, the timer shows `60*m - n` seconds and runs
    for every `n < 60*m`, and after exactly `60*m` ticks it is idle again.
  */
  lemma CountdownFromStart(m: nat)
    ensures forall n :: 0 <= n < 60 * m ==> Ticks(ToggleStep(Idle, m), n) == Countdown(60 * m - n, true)
    ensures Ticks(ToggleStep(Idle, m), 60 * m) == Idle
  {
    if m > 0 {
      forall n | 0 <= n <= 60 * m
        ensures Ticks(ToggleStep(Idle, m), n) == Countdown(60 * m - n, n < 60 * m)
      {
        RunsDown(60 * m, n);
      }
    }
  }

  /** Pausing and resuming a running timer gives back the same state: resuming never reseeds. */
  lemma PauseResume(c: Countdown, minutes: nat)
    requires Stable(c) && c.isActive
    ensures ToggleStep(c, minutes) == Countdown(c.timeLeft, false)
    ensures ToggleStep(ToggleStep(c, minutes), minutes) == c
  {
  }

  /** Reads a `"MM:SS"` label (the minute field may be wider) back into seconds. */
  function ParseClock(shown: string): Option<nat> {
    var n := |shown|;
    if n >= 5 && shown[n - 3] == ':' && AllDigits(shown[..n - 3]) && AllDigits(shown[n - 2..])
       && DigitsValue(shown[n - 2..]) < 60
    then Some(60 * DigitsValue(shown[..n - 3]) + DigitsValue(shown[n - 2..]))
    else None
  }

  /** A minute count and a seconds count below 60, joined as `formatTime` joins them. */
  function Clock(mins: nat, secs: nat): string {
    Pad(mins) + ":" + Pad(secs)
  }

  lemma ClockRoundTrip(mins: nat, secs: nat)
    requires secs < 60
    ensures ParseClock(Clock(mins, secs)) == Some(60 * mins + secs)
  {
    PadTwoDigits(secs);
    PadWidth(mins);
    PadRoundTrip(mins);
    PadRoundTrip(secs);
    ParseFields(Pad(mins), Pad(secs));
  }

  /** A digit field of width at least two, `':'` and a two-digit field below 60 parse as minutes and seconds. */
  lemma ParseFields(a: string, b: string)
    requires |a| >= 2 && AllDigits(a) && |b| == 2 && AllDigits(b) && DigitsValue(b) < 60
    ensures ParseClock(a + ":" + b) == Some(60 * DigitsValue(a) + DigitsValue(b))
  {
    CutAt(a, ':', b);
    assert a + ":" + b == a + [':'] + b;
  }

  /** `a`, one separator and `b`, joined, cut apart again at the separator. */
  lemma CutAt<T>(a: seq<T>, sep: T, b: seq<T>)
    ensures var j := a + [sep] + b;
            |j| == |a| + 1 + |b| && j[..|a|] == a && j[|a|] == sep && j[|j| - |b|..] == b
  {
    var j := a + [sep] + b;
    assert j[..|a|] == a;
    assert j[|j| - |b|..] == b;
  }

  /** Two two-character fields joined by `':'` spell out five characters. */
  lemma JoinFields(a: string, b: string)
    requires |a| == 2 && |b| == 2
    ensures a + ":" + b == [a[0], a[1], ':', b[0], b[1]]
  {
  }

  lemma ClockWidth(mins: nat, secs: nat)
    requires secs < 60
    ensures |Clock(mins, secs)| == 5 <==> mins < 100
    ensures mins < 100 ==>
              var shown := Clock(mins, secs);
              shown[0] == DigitChar(mins / 10) && shown[1] == DigitChar(mins % 10) &&
              shown[2] == ':' &&
              shown[3] == DigitChar(secs / 10) && shown[4] == DigitChar(secs % 10)
  {
    PadTwoDigits(secs);
    PadWidth(mins);
    if mins < 100 {
      PadTwoDigits(mins);
      JoinFields(Pad(mins), Pad(secs));
    }
  }

  /**
    `formatTime`: whole minutes and remaining seconds, each padded to two digits,
    joined by `':'`. The seconds field is always two digits below 60 and the label
    always reads back as the same number of seconds.
  */
  function FormatTime(seconds: nat): (shown: string)
    ensures ParseClock(shown) == Some(seconds)
  {
    var mins, secs := seconds / 60, seconds % 60;
    ClockRoundTrip(mins, secs);
    assert 60 * mins + secs == seconds;
    Clock(mins, secs)
  }

  /**
    The label is exactly five characters `"MM:SS"` if and only if fewer than 100 minutes
    are left; then each field is two digits, zero-padded.
  */
  lemma FormatTimeWidth(seconds: nat)
    ensures |FormatTime(seconds)| == 5 <==> seconds < 6000
    ensures seconds < 6000 ==>
              var shown, mins, secs := FormatTime(seconds), seconds / 60, seconds % 60;
              shown[0] == DigitChar(mins / 10) && shown[1] == DigitChar(mins % 10) &&
              shown[2] == ':' &&
              shown[3] == DigitChar(secs / 10) && shown[4] == DigitChar(secs % 10)
  {
    var mins, secs := seconds / 60, seconds % 60;
    ClockWidth(mins, secs);
    assert mins < 100 <==> seconds < 6000;
  }

  /** What the face shows: the minute field, or the formatted countdown; and the play/pause icon. */
  datatype Face = MinuteInput(text: string) | Remaining(shown: string)
  datatype TimerView = TimerView(face: Face, pauseIcon: bool)

  class TimerMode {
    var timeLeft: nat
    var inputMinutes: string
    var isActive: bool

    function State(): Countdown
      reads this
    {
      Countdown(timeLeft, isActive)
    }

    ghost predicate Valid()
      reads this
    {
      Stable(State()) && AllDigits(inputMinutes)
    }

    constructor ()
      ensures Valid() && State() == Idle && inputMinutes == "10"
    {
      timeLeft, inputMinutes, isActive := 0, "10", false;
    }

    /** Typing in the minute field. */
    method SetInputMinutes(text: string)
      requires Valid() && AllDigits(text)
      modifies this
      ensures Valid() && inputMinutes == text && State() == old(State())
    {
      inputMinutes := text;
    }

    /** The `[isActive, timeLeft]` effect, run after every state change. */
    method RunEffect()
      modifies this
      ensures State() == Settle(old(State())) && inputMinutes == old(inputMinutes)
    {
      if isActive && timeLeft > 0 {
        // the interval is armed; nothing changes until it fires
      } else if timeLeft == 0 {
        isActive := false;
      }
    }

    /** The play/pause button. */
    method Toggle()
      requires Valid()
      modifies this
      ensures Valid() && inputMinutes == old(inputMinutes)
      ensures State() == ToggleStep(old(State()), Minutes(old(inputMinutes)))
    {
      var wasActive := isActive;
      if timeLeft == 0 && !isActive {
        timeLeft := 60 * Minutes(inputMinutes);
      }
      isActive := !wasActive;
      RunEffect();
    }

    /** One firing of the one-second interval. */
    method Tick()
      requires Valid()
      modifies this
      ensures Valid() && inputMinutes == old(inputMinutes)
      ensures State() == TickStep(old(State()))
    {
      if isActive && timeLeft > 0 {
        timeLeft := timeLeft - 1;
        RunEffect();
      }
    }

    /** The reset button: stop and zero out, from any state. */
    method Reset()
      requires Valid()
      modifies this
      ensures Valid() && inputMinutes == old(inputMinutes)
      ensures State() == Idle
    {
      isActive := false;
      timeLeft := 0;
      RunEffect();
    }

    /** The minute field is shown exactly when idle; otherwise the formatted time left. */
    function View(): (v: TimerView)
      reads this
      ensures v.face.MinuteInput? <==> State() == Idle
      ensures v.face.MinuteInput? ==> v.face.text == inputMinutes
      ensures v.face.Remaining? ==> v.face.shown == FormatTime(timeLeft)
      ensures v.face.Remaining? ==> ParseClock(v.face.shown) == Some(timeLeft)
      ensures v.pauseIcon <==> isActive
    {
      var face := if timeLeft == 0 && !isActive then MinuteInput(inputMinutes)
                  else Remaining(FormatTime(timeLeft));
      TimerView(face, isActive)
    }
  }
}
