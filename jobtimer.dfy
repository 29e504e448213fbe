/**
 * The countdown shown for an accepted job. Everything is integer arithmetic on the
 * start instant (milliseconds), the duration (minutes) and the current instant `now`,
 * which the component reads from the clock once a second and which is a parameter here.
 */
module JobTimer {
  import opened Types

  /** The component's state after `updateTimer`: a magnitude in seconds and the overtime flag. */
  datatype TimerState = TimerState(timeRemaining: nat, isOvertime: bool)

  datatype TimerColor = Red | Orange | Green

  /** The render guard: both timer fields truthy (present and nonzero) and the job accepted. */
  predicate ShowsTimer(job: Job)
  {
    && job.timerStartedAt.Some? && job.timerStartedAt.value != 0
    && job.timerDuration.Some? && job.timerDuration.value != 0
    && job.status == Accepted
  }

  /** Whole seconds since the start, rounded down (also before the start). */
  function ElapsedSeconds(startedAt: Instant, now: Instant): (e: int)
    ensures e * 1000 <= now - startedAt < e * 1000 + 1000
  {
    (now - startedAt) / 1000
  }

  /** Seconds left of a window of `minutes`: none left exactly once the window in ms has passed. */
  function RemainingSeconds(startedAt: Instant, minutes: int, now: Instant): (r: int)
    ensures r <= 0 <==> now - startedAt >= minutes * 60000
  {
    minutes * 60 - ElapsedSeconds(startedAt, now)
  }

  /**
   * `updateTimer`: overtime exactly from the instant the full duration has passed;
   * the magnitude counts down before that and up after it.
   */
  function UpdateTimer(startedAt: Instant, minutes: int, now: Instant): (st: TimerState)
    ensures st.isOvertime <==> now - startedAt >= minutes * 60000
    ensures st.isOvertime ==> st.timeRemaining == ElapsedSeconds(startedAt, now) - minutes * 60
    ensures !st.isOvertime ==> st.timeRemaining == minutes * 60 - ElapsedSeconds(startedAt, now) > 0
  {
    var remaining := RemainingSeconds(startedAt, minutes, now);
    if remaining <= 0 then TimerState(-remaining, true) else TimerState(remaining, false)
  }

  /** What the component renders at `now`: a timer state, or nothing when the guard fails. */
  function Projection(job: Job, now: Instant): (r: Option<TimerState>)
    ensures r.Some? <==> ShowsTimer(job)
  {
    if ShowsTimer(job) then Some(UpdateTimer(job.timerStartedAt.value, job.timerDuration.value, now))
    else None
  }

  /** A job accepted at `startedAt` for `minutes`: at the deadline it shows +0, one second later +1. */
  lemma OvertimeAtDeadline(startedAt: Instant, minutes: int)
    ensures UpdateTimer(startedAt, minutes, startedAt + minutes * 60000) == TimerState(0, true)
    ensures UpdateTimer(startedAt, minutes, startedAt + minutes * 60000 + 1000) == TimerState(1, true)
    ensures minutes > 0 ==> UpdateTimer(startedAt, minutes, startedAt) == TimerState(minutes * 60, false)
  {
    assert (minutes * 60000) / 1000 == minutes * 60;
    assert (minutes * 60000 + 1000) / 1000 == minutes * 60 + 1;
  }

  // ---------------------------------------------------------------------------
  // Colour

  /** `getTimerColor` */
  function TimerColorOf(st: TimerState): TimerColor
  {
    if st.isOvertime then Red else if st.timeRemaining < 600 then Orange else Green
  }

  function ColorClasses(c: TimerColor): string
  {
    match c
    case Red => "text-red-600 bg-red-50 border-red-300"
    case Orange => "text-orange-600 bg-orange-50 border-orange-300"
    case Green => "text-green-600 bg-green-50 border-green-300"
  }

  /**
   * The colour bands in terms of the time since the start: red from the deadline on,
   * orange in the last ten minutes before it (down to whole seconds), green before that.
   */
  lemma ColorBands(startedAt: Instant, minutes: int, now: Instant)
    ensures var c := TimerColorOf(UpdateTimer(startedAt, minutes, now));
            var d := now - startedAt;
            && (c == Red <==> d >= minutes * 60000)
            && (c == Orange <==> (minutes * 60 - 599) * 1000 <= d < minutes * 60000)
            && (c == Green <==> d < (minutes * 60 - 599) * 1000)
  {
    var d := now - startedAt;
    assert ElapsedSeconds(startedAt, now) >= minutes * 60 - 599 <==> d >= (minutes * 60 - 599) * 1000;
  }

  // ---------------------------------------------------------------------------
  // Text

  function DigitChar(d: nat): char
    requires d < 10
  {
    ('0' as int + d) as char
  }

  predicate IsDigits(s: string)
  {
    forall i :: 0 <= i < |s| ==> '0' <= s[i] <= '9'
  }

  /** A non-negative number as JavaScript prints it: its decimal digits. */
  function NatToString(n: nat): (s: string)
    ensures |s| >= 1 && IsDigits(s)
    ensures n == 0 ==> s == "0"
    ensures n == 0 || s[0] != '0'
  {
    if n < 10 then [DigitChar(n)] else NatToString(n / 10) + [DigitChar(n % 10)]
  }

  /** The number a string of decimal digits denotes. */
  function DigitsValue(s: string): nat
    requires IsDigits(s)
  {
    if s == [] then 0 else DigitsValue(s[..|s| - 1]) * 10 + (s[|s| - 1] as int - '0' as int)
  }

  /** Printing a number and reading its digits back gives the number. */
  lemma {:induction false} NatToStringRoundTrip(n: nat)
    ensures DigitsValue(NatToString(n)) == n
  {
    if n >= 10 {
      var s := NatToString(n);
      assert s[..|s| - 1] == NatToString(n / 10);
      NatToStringRoundTrip(n / 10);
    }
  }

  datatype Clock = Clock(hours: nat, minutes: nat, secs: nat)

  /** The split `formatTime` makes: whole hours, then minutes and seconds below 60. */
  function ClockOf(seconds: nat): (c: Clock)
    ensures c.hours * 3600 + c.minutes * 60 + c.secs == seconds
    ensures c.minutes < 60 && c.secs < 60
  {
    Clock(seconds / 3600, (seconds % 3600) / 60, seconds % 60)
  }

  /** The split is the only one with minutes and seconds below 60. */
  lemma ClockUnique(seconds: nat, c: Clock)
    requires c.hours * 3600 + c.minutes * 60 + c.secs == seconds
    requires c.minutes < 60 && c.secs < 60
    ensures c == ClockOf(seconds)
  {
    var d := ClockOf(seconds);
    assert c.minutes * 60 + c.secs < 3600 && d.minutes * 60 + d.secs < 3600;
    assert c.hours == d.hours;
    assert c.minutes == d.minutes;
  }

  /** `formatTime` */
  function FormatTime(seconds: nat): string
  {
    var c := ClockOf(seconds);
    if c.hours > 0 then
      NatToString(c.hours) + "h " + NatToString(c.minutes) + "m " + NatToString(c.secs) + "s"
    else
      NatToString(c.minutes) + "m " + NatToString(c.secs) + "s"
  }

  /** The formatted time has an hours part exactly when at least one full hour is shown. */
  lemma FormatShowsHours(seconds: nat)
    ensures 'h' in FormatTime(seconds) <==> seconds >= 3600
  {
    var c := ClockOf(seconds);
    var h, m, s := NatToString(c.hours), NatToString(c.minutes), NatToString(c.secs);
    assert 'h' !in h && 'h' !in m && 'h' !in s by {
      assert forall x :: IsDigits(x) ==> 'h' !in x;
    }
    if c.hours > 0 {
      assert FormatTime(seconds)[|h|] == 'h';
    } else {
      assert FormatTime(seconds) == m + "m " + s + "s";
    }
  }

  /** The duration caption under the timer. */
  function DurationLabel(minutes: int): string
  {
    if minutes == 60 then "1 hour" else if minutes == 120 then "2 hours" else "4 hours"
  }
}
