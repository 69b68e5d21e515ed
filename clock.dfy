/** The in-game clock: one hour per clock tick, from midnight (hour 0) to
    6 AM, when the night is won. */
module Clock {

  const WinHour: int := 6

  /** The hour after a tick, and whether that tick wins the night. */
  datatype ClockResult = ClockResult(hour: int, win: bool)

  /** One clock tick from hour t. The tick from 5 is the one that calls the
      win transition. */
  function ClockTick(t: int): (r: ClockResult)
    ensures r.hour == t + 1
    ensures r.win <==> r.hour == WinHour
  {
    if t == 5 then ClockResult(6, true)
    else ClockResult(t + 1, false)
  }

  /** The clock after n ticks from midnight; ticks stop once the night is won. */
  function Run(n: nat): ClockResult
  {
    if n == 0 then ClockResult(0, false)
    else
      var prev := Run(n - 1);
      if prev.win then prev else ClockTick(prev.hour)
  }

  /** From midnight the hour never passes 6, and the win fires exactly when
      6 is reached. */
  lemma {:induction false} RunFromMidnight(n: nat)
    ensures Run(n).hour == (if n <= WinHour then n else WinHour)
    ensures Run(n).win <==> n >= WinHour
  {
    if n > 0 {
      RunFromMidnight(n - 1);
    }
  }
}
