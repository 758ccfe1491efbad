/** The puzzle countdown (`startTimer`, `stopTimer`, `updateTimerDisplay`,
    script.js): an integer number of seconds that a one-second interval
    decrements, the warning and critical marks it collects, and the `m:ss`
    text it shows. */
module Clock {
  import opened Wrappers
  import opened Text

  /** The countdown: whether an interval is installed, `timeRemaining`, and
      whether the display carries the `timer-warning` / `timer-critical` class. */
  datatype Countdown = Countdown(running: bool, remaining: int, warning: bool, critical: bool)

  /** The state before any timer was started. */
  const Idle: Countdown := Countdown(false, 0, false, false)

  /** The seconds the page starts each puzzle with (`10 * 60`). */
  const PuzzleSeconds: int := 600

  predicate WarningAt(t: int) { t <= 60 }
  predicate CriticalAt(t: int) { t <= 10 }

  /** `startTimer(seconds)`: the old interval is cleared, both marks are
      removed and the first display adds them again when `seconds` is already
      low enough. */
  function Started(seconds: int): Countdown {
    Countdown(true, seconds, WarningAt(seconds), CriticalAt(seconds))
  }

  /** `stopTimer()`: the interval is cleared; the display keeps what it shows. */
  function Stop(c: Countdown): Countdown {
    c.(running := false)
  }

  /** One firing of the interval: the time goes down by one, the display adds
      the marks the new time calls for (it never removes one), and when the
      time has run out the interval clears itself and `handleTimeUp` runs. */
  datatype TickResult = TickResult(clock: Countdown, timeUp: bool)

  function Tick(c: Countdown): (r: TickResult)
    requires c.running
    ensures r.clock.remaining == c.remaining - 1
    ensures r.timeUp <==> r.clock.remaining <= 0
    ensures r.clock.running <==> !r.timeUp
    ensures r.clock.warning <==> c.warning || WarningAt(r.clock.remaining)
    ensures r.clock.critical <==> c.critical || CriticalAt(r.clock.remaining)
  {
    var t := c.remaining - 1;
    var up := t <= 0;
    TickResult(Countdown(!up, t, c.warning || WarningAt(t), c.critical || CriticalAt(t)), up)
  }

  /** The countdown after `k` more firings of a running interval, or earlier
      if the time runs out first. */
  function Ticks(c: Countdown, k: nat): Countdown
    decreases k
  {
    if k == 0 || !c.running then c else Ticks(Tick(c).clock, k - 1)
  }

  /** From `startTimer(n)` the interval fires `k < n` times without the time
      running out; the time shown is then `n - k`, and the marks are exactly
      the ones that time calls for. */
  lemma {:induction false} TicksBeforeTimeUp(n: int, k: nat)
    requires k < n
    ensures Ticks(Started(n), k) == Started(n - k)
    decreases k
  {
    if k > 0 {
      TicksBeforeTimeUp(n, k - 1);
      TicksSplit(Started(n), k - 1);
      var t := Tick(Started(n - (k - 1)));
      assert t.clock == Started(n - k);
    }
  }

  /** A run of `k + 1` firings is a run of `k` firings followed by one more. */
  lemma {:induction false} TicksSplit(c: Countdown, k: nat)
    ensures Ticks(c, k + 1) == if Ticks(c, k).running then Tick(Ticks(c, k)).clock else Ticks(c, k)
    decreases k
  {
    if k > 0 && c.running {
      TicksSplit(Tick(c).clock, k - 1);
    }
  }

  /** Started with `n >= 1` seconds, the `n`-th firing is the one at which
      `handleTimeUp` runs: the time shows 0 and the interval is gone. */
  lemma TimeUpAfterExactly(n: int)
    requires n >= 1
    ensures Ticks(Started(n), n - 1).running
    ensures Tick(Ticks(Started(n), n - 1)).timeUp
    ensures Ticks(Started(n), n) == Countdown(false, 0, true, true)
  {
    TicksBeforeTimeUp(n, n - 1);
    TicksSplit(Started(n), n - 1);
  }

  // ---------------------------------------------------------------------------
  // the m:ss text
  // ---------------------------------------------------------------------------

  /** JavaScript's `%`: the remainder takes the sign of the dividend. */
  function JsRem(a: int, b: int): (r: int)
    requires b > 0
    ensures a >= 0 ==> r == a % b
    ensures a < 0 ==> r == -((-a) % b)
    ensures -b < r < b
  {
    if a >= 0 then a % b else -((-a) % b)
  }

  /** `${Math.floor(t / 60)}:${(t % 60).toString().padStart(2, '0')}`. */
  function ClockText(t: int): string {
    IntToString(t / 60) + ":" + PadStart2(IntToString(JsRem(t, 60)))
  }

  /** Reads an `m:ss` text back into seconds: digits, a colon, two digits. */
  function ReadClock(text: string): (r: Option<int>)
    ensures r.Some? ==> r.value >= 0
  {
    var parts := Split(text, ':');
    if |parts| == 2 && |parts[1]| == 2 && AllDigits(parts[0]) && AllDigits(parts[1])
    then Some(DigitsValue(parts[0]) * 60 + DigitsValue(parts[1]))
    else None
  }

  /** A numeral padded with one leading zero reads as the same number. */
  lemma LeadingZero(d: string)
    requires |d| == 1 && IsDigit(d[0])
    ensures DigitsValue("0" + d) == DigitsValue(d)
  {
    var s := "0" + d;
    assert s[..|s| - 1] == "0";
    assert d[..0] == "";
  }

  /** For a non-negative time the text is minutes, a colon and exactly two
      second digits, and reading it back gives the time. */
  lemma ClockTextRoundTrip(t: int)
    requires t >= 0
    ensures ReadClock(ClockText(t)) == Some(t)
  {
    var m := NatToString(t / 60);
    PaddedSeconds(t % 60);
    assert ClockText(t) == m + ":" + PadStart2(NatToString(t % 60));
    ReadClockOf(m, PadStart2(NatToString(t % 60)));
    DigitsValueOfNatToString(t / 60);
  }

  /** The seconds field: two digits that read back as the seconds. */
  lemma PaddedSeconds(sec: nat)
    requires sec < 60
    ensures |PadStart2(NatToString(sec))| == 2 && AllDigits(PadStart2(NatToString(sec)))
    ensures DigitsValue(PadStart2(NatToString(sec))) == sec
  {
    var d := NatToString(sec);
    DigitsValueOfNatToString(sec);
    if |d| == 1 {
      assert PadStart2(d) == "0" + d;
      LeadingZero(d);
    }
  }

  /** Digits, a colon and two digits read as minutes and seconds. */
  lemma ReadClockOf(m: string, ss: string)
    requires AllDigits(m) && AllDigits(ss) && |ss| == 2
    ensures ReadClock(m + ":" + ss) == Some(DigitsValue(m) * 60 + DigitsValue(ss))
  {
    var text := m + ":" + ss;
    NoColonInDigits(m);
    NoColonInDigits(ss);
    SplitJoin([m, ss], ':');
    assert Join([m, ss], ':') == text by {
      assert Join([m, ss], ':') == m + [':'] + Join([ss], ':');
    }
    ReadClockOfParts(text, m, ss);
  }

  lemma ReadClockOfParts(text: string, m: string, ss: string)
    requires AllDigits(m) && AllDigits(ss) && |ss| == 2
    requires Split(text, ':') == [m, ss]
    ensures ReadClock(text) == Some(DigitsValue(m) * 60 + DigitsValue(ss))
  {
  }

  lemma NoColonInDigits(d: string)
    requires AllDigits(d)
    ensures ':' !in d
  {
    assert forall i :: 0 <= i < |d| ==> d[i] != ':';
  }

  /** The text at the start of a puzzle, around the last minute, and when the
      interval clears itself. */
  lemma ClockAtTimeUp()
    ensures ClockText(0) == "0:00"
    ensures ClockText(60) == "1:00" && ClockText(59) == "0:59"
    ensures ClockText(PuzzleSeconds) == "10:00"
  {
  }
}
