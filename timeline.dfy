/**
 * The dashboard's timeline rules (src/app/App.tsx): stepping one month back or
 * forward, and the playback tick that advances a month and wraps to the start
 * of the range once it would pass the end. Dates are month indices.
 */
module Timeline {
  import opened Types

  const RangeStart: Month := 1979 * 12        // 1979-01
  const RangeEnd: Month := 2024 * 12 + 11     // 2024-12
  const InitialDate: Month := 2024 * 12 + 5   // 2024-06

  predicate InRange(date: Month, range: TimeRange)
  {
    range.start <= date <= range.end
  }

  /** `onStepBackward`: one month earlier, unless that is before the start. */
  function StepBackward(current: Month, range: TimeRange): (next: Month)
    ensures next == current - 1 || next == current
    ensures next == current - 1 <==> current - 1 >= range.start
    ensures InRange(current, range) ==> InRange(next, range)
  {
    if current - 1 >= range.start then current - 1 else current
  }

  /** `onStepForward`: one month later, unless that is past the end. */
  function StepForward(current: Month, range: TimeRange): (next: Month)
    ensures next == current + 1 || next == current
    ensures next == current + 1 <==> current + 1 <= range.end
    ensures InRange(current, range) ==> InRange(next, range)
  {
    if current + 1 <= range.end then current + 1 else current
  }

  datatype Playback = Playback(date: Month, playing: bool)

  /**
   * One tick of the playback interval (it only runs while playing): a month
   * later, or, when that passes the end, back to the start with playback
   * stopped.
   */
  function PlaybackTick(current: Month, range: TimeRange): (r: Playback)
    ensures r.playing <==> current + 1 <= range.end
    ensures r.playing ==> r.date == current + 1
    ensures !r.playing ==> r.date == range.start
    ensures InRange(current, range) ==> InRange(r.date, range)
  {
    if current + 1 > range.end then Playback(range.start, false)
    else Playback(current + 1, true)
  }

  /** The timeline controls a user can operate, and the interval firing. */
  datatype Control = StepBack | StepAhead | PlayPause | Tick

  function Apply(s: Playback, c: Control, range: TimeRange): Playback
  {
    match c
    case StepBack => s.(date := StepBackward(s.date, range))
    case StepAhead => s.(date := StepForward(s.date, range))
    case PlayPause => s.(playing := !s.playing)
    case Tick => if s.playing then PlaybackTick(s.date, range) else s
  }

  function Run(s: Playback, controls: seq<Control>, range: TimeRange): Playback
    decreases |controls|
  {
    if controls == [] then s else Run(Apply(s, controls[0], range), controls[1..], range)
  }

  /** A date inside the range never leaves it, whatever the controls do. */
  lemma {:induction false} RunStaysInRange(s: Playback, controls: seq<Control>, range: TimeRange)
    requires InRange(s.date, range)
    ensures InRange(Run(s, controls, range).date, range)
    decreases |controls|
  {
    if controls != [] {
      RunStaysInRange(Apply(s, controls[0], range), controls[1..], range);
    }
  }
}
