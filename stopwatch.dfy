/**
 * The server's stopwatch arithmetic. The counter advances once per 100 ms
 * tick, so n ticks are n / 10 whole seconds; the display splits that into
 * minutes and seconds by floor division.
 */
module Stopwatch {

  /** Math.floor(time / 10 / 60). */
  function Minutes(ticks: nat): (m: nat)
    ensures 600 * m <= ticks < 600 * (m + 1)
  {
    WholeMinuteBounds(ticks);
    ticks / 10 / 60
  }

  /** Floor division by 10 and then by 60 brackets ticks between two multiples of 600. */
  lemma WholeMinuteBounds(ticks: nat)
    ensures 600 * (ticks / 10 / 60) <= ticks < 600 * (ticks / 10 / 60 + 1)
  {
    var s := ticks / 10;
    var m := s / 60;
    assert 10 * s <= ticks < 10 * s + 10;
    assert 60 * m <= s < 60 * m + 60;
  }

  /** Math.floor(elapsedSeconds / 10 % 60). */
  function Seconds(ticks: nat): (s: nat)
    ensures s < 60
  {
    ticks / 10 % 60
  }

  /** Whole elapsed seconds split as minutes and seconds: seconds stay below 60. */
  lemma {:induction false} ClockSplitsWholeSeconds(ticks: nat)
    ensures Seconds(ticks) < 60
    ensures 60 * Minutes(ticks) + Seconds(ticks) == ticks / 10
  {
  }

  /** The minute count is the number of complete 600-tick (one minute) spans. */
  lemma MinutesAreWholeMinutes(ticks: nat)
    ensures Minutes(ticks) == ticks / 600
    ensures 600 * Minutes(ticks) <= ticks < 600 * (Minutes(ticks) + 1)
  {
    WholeMinuteBounds(ticks);
  }

  /** One more tick never makes the displayed clock go back. */
  lemma TickNeverGoesBack(ticks: nat)
    ensures Minutes(ticks) <= Minutes(ticks + 1)
    ensures Minutes(ticks) == Minutes(ticks + 1) ==> Seconds(ticks) <= Seconds(ticks + 1)
  {
    ClockSplitsWholeSeconds(ticks);
    ClockSplitsWholeSeconds(ticks + 1);
    assert ticks / 10 <= (ticks + 1) / 10;
  }
}
