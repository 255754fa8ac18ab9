/** `QMovingProgressBar` of the scripted atlas module (Script/LowRankImageDecomposition.py):
    a progress bar over the range `[0, size]` whose value a timer advances by one,
    wrapping to 0 on reaching the maximum, to show that work is going on.

    Writes to the value go through Qt's `QProgressBar::setValue`, which ignores a
    value outside `[minimum, maximum]` unless the range is `[0, 0]`; a new bar's
    value is `minimum - 1`. */
module ProgressBar {

  /** `QProgressBar::setValue` for the range `[0, maximum]`. */
  function SetValue(current: int, requested: int, maximum: int): (v: int)
    ensures maximum != 0 && (requested < 0 || requested > maximum) ==> v == current
    ensures maximum == 0 || 0 <= requested <= maximum ==> v == requested
  {
    if (requested < 0 || requested > maximum) && maximum != 0 then current else requested
  }

  /** The value after one timer tick (`_move`). */
  function Moved(value: int, maximum: int): int
  {
    var v := SetValue(value, value + 1, maximum);
    if v == maximum then SetValue(v, 0, maximum) else v
  }

  /** The value after `ticks` timer ticks. */
  function MovedTimes(value: int, maximum: int, ticks: nat): int
  {
    if ticks == 0 then value else Moved(MovedTimes(value, maximum, ticks - 1), maximum)
  }

  /** On a non-empty range one tick keeps the value in `[0, maximum)` and moves it
      one step around the cycle. */
  lemma MovedWraps(value: int, maximum: int)
    requires 0 <= value < maximum
    ensures 0 <= Moved(value, maximum) < maximum
    ensures Moved(value, maximum) == (value + 1) % maximum
  {
  }

  /** Started from 0, the bar counts the ticks until it reaches the maximum. */
  lemma {:induction false} MovedTimesCounts(maximum: int, ticks: nat)
    requires ticks < maximum
    ensures MovedTimes(0, maximum, ticks) == ticks
  {
    if ticks > 0 {
      MovedTimesCounts(maximum, ticks - 1);
    }
  }

  /** Started from 0, the bar stays in `[0, maximum)` and repeats itself every
      `maximum` ticks. */
  lemma {:induction false} MovedTimesPeriodic(maximum: int, ticks: nat)
    requires maximum > 0
    ensures 0 <= MovedTimes(0, maximum, ticks) < maximum
    ensures MovedTimes(0, maximum, ticks + maximum) == MovedTimes(0, maximum, ticks)
  {
    if ticks == 0 {
      MovedTimesCounts(maximum, maximum - 1);
      assert MovedTimes(0, maximum, maximum) == Moved(maximum - 1, maximum);
    } else {
      MovedTimesPeriodic(maximum, ticks - 1);
      MovedWraps(MovedTimes(0, maximum, ticks - 1), maximum);
      assert MovedTimes(0, maximum, ticks + maximum) == Moved(MovedTimes(0, maximum, ticks - 1 + maximum), maximum);
    }
  }

  /** The widget: its value, its maximum (the minimum is 0) and its timer. */
  class MovingProgressBar {
    var value: int
    var maximum: int
    var timerActive: bool

    /** While the timer runs on a non-empty range, the value stays in `[0, maximum)`. */
    ghost predicate Valid()
      reads this
    {
      && maximum >= 0
      && (maximum > 0 ==> -1 <= value <= maximum)
      && (timerActive && maximum > 0 ==> 0 <= value < maximum)
    }

    /** `QMovingProgressBar(size)`: `setRange(0, size)`, timer not yet started. */
    constructor (size: int)
      ensures Valid()
      ensures maximum == (if size < 0 then 0 else size) && value == -1 && !timerActive
    {
      maximum := if size < 0 then 0 else size;
      value := -1;
      timerActive := false;
    }

    method Start()
      requires Valid()
      modifies this
      ensures Valid()
      ensures value == 0 && timerActive && maximum == old(maximum)
    {
      value := SetValue(value, 0, maximum);
      timerActive := true;
    }

    /** The timer's slot: one step forward, back to 0 on reaching the maximum. */
    method Move()
      requires Valid()
      modifies this`value
      ensures Valid()
      ensures value == Moved(old(value), maximum)
    {
      value := SetValue(value, value + 1, maximum);
      if value == maximum {
        value := SetValue(value, 0, maximum);
      }
      if timerActive && maximum > 0 {
        MovedWraps(old(value), maximum);
      }
    }

    method Stop()
      requires Valid()
      modifies this
      ensures Valid()
      ensures value == maximum && !timerActive && maximum == old(maximum)
    {
      timerActive := false;
      value := SetValue(value, maximum, maximum);
    }

    method Clear()
      requires Valid()
      modifies this
      ensures Valid()
      ensures value == 0 && !timerActive && maximum == old(maximum)
    {
      timerActive := false;
      value := SetValue(value, 0, maximum);
    }
  }
}
