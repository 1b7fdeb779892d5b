/** Fade.cpp / Fade.h: the full-screen fade. A fade-in runs the counter up to the
    duration and then switches itself off; a fade-out holds at the duration. The sprite
    is reduced to the alpha each frame would give it. */
module Fade {
  import opened Numeric

  /** Fade::Status. */
  datatype Status = None | FadeIn | FadeOut

  /** counter / duration clamped into [0, 1]: how far the fade has run. */
  function Progress(counter: real, duration: real): (r: real)
    requires duration != 0.0
    ensures 0.0 <= r <= 1.0
  {
    Clamp(counter / duration, 0.0, 1.0)
  }

  /** The alpha of a fade-in frame: opaque at the start, clear at the end. */
  function FadeInAlpha(counter: real, duration: real): (r: real)
    requires duration != 0.0
    ensures 0.0 <= r <= 1.0
    ensures r + Progress(counter, duration) == 1.0
  {
    1.0 - Progress(counter, duration)
  }

  /** The alpha of a fade-out frame: clear at the start, opaque at the end. */
  function FadeOutAlpha(counter: real, duration: real): (r: real)
    requires duration != 0.0
    ensures 0.0 <= r <= 1.0
    ensures r + FadeInAlpha(counter, duration) == 1.0
  {
    Progress(counter, duration)
  }

  /** Within a positive duration, the progress is the plain ratio: the clamp only guards. */
  lemma {:induction false} ProgressIsRatio(counter: real, duration: real)
    requires 0.0 < duration && 0.0 <= counter <= duration
    ensures Progress(counter, duration) == counter / duration
    ensures counter == 0.0 ==> Progress(counter, duration) == 0.0
    ensures counter == duration ==> Progress(counter, duration) == 1.0
  {
    var q := counter / duration;
    assert q * duration == counter;
    if q > 1.0 {
      MulMonotoneLeft(duration, 1.0, q);
    }
  }

  /** A later counter never lowers the progress of a positive-duration fade. */
  lemma {:induction false} ProgressMonotone(c1: real, c2: real, duration: real)
    requires 0.0 < duration && c1 <= c2
    ensures Progress(c1, duration) <= Progress(c2, duration)
  {
    var q1, q2, dq := c1 / duration, c2 / duration, (c2 - c1) / duration;
    assert q2 - q1 == dq;
    assert 0.0 <= dq;
    ClampMonotone(q1, q2, 0.0, 1.0);
  }

  /** class Fade. */
  class Fade {
    var status: Status
    var duration: real
    var counter: real

    /** With a non-negative duration the counter stays within [0, duration]. */
    ghost predicate Valid()
      reads this
    {
      0.0 <= duration ==> 0.0 <= counter <= duration
    }

    /** The default members of Fade.h; the sprite set-up of Initialize is not modelled. */
    constructor ()
      ensures Valid()
      ensures status == None && duration == 0.0 && counter == 0.0
    {
      status := None;
      duration := 0.0;
      counter := 0.0;
    }

    /** Start: the given status and duration, counting from 0. */
    method Start(newStatus: Status, newDuration: real)
      modifies this
      ensures Valid()
      ensures status == newStatus && duration == newDuration && counter == 0.0
    {
      status := newStatus;
      duration := newDuration;
      counter := 0.0;
    }

    /** Stop: the fade is switched off and nothing else changes. */
    method Stop()
      modifies this`status
      ensures status == None
    {
      status := None;
    }

    /** IsFinished: finished when off, otherwise once the counter has reached the
        duration. */
    function IsFinished(): (r: bool)
      reads this
      ensures status == None ==> r
      ensures status != None ==> (r <==> counter >= duration)
    {
      match status
      case FadeIn => counter >= duration
      case FadeOut => counter >= duration
      case None => true
    }

    /** Update for one frame, returning the alpha the sprite is given (0 when off). A
        running fade divides by its duration, so a zero duration is not a defined input. */
    method Update() returns (alpha: real)
      requires Valid()
      requires status != None ==> duration != 0.0
      modifies this
      ensures Valid()
      ensures duration == old(duration)
      ensures 0.0 <= alpha <= 1.0
      ensures old(status) == None ==> status == None && counter == old(counter) && alpha == 0.0
      ensures old(status) == FadeIn ==>
                var next := old(counter) + FrameTime;
                (next >= duration ==> counter == duration && status == None)
                && (next < duration ==> counter == next && status == FadeIn)
                && alpha == FadeInAlpha(counter, duration)
      ensures old(status) == FadeOut ==>
                status == FadeOut && counter == Min(old(counter) + FrameTime, duration)
                && alpha == FadeOutAlpha(counter, duration)
      ensures old(status) != None && 0.0 < duration ==> old(counter) <= counter
    {
      alpha := 0.0;
      match status {
        case None =>
        case FadeIn =>
          counter := counter + 1.0 / 60.0;
          if counter >= duration {
            counter := duration;
            status := None;
          }
          alpha := 1.0 - Clamp(counter / duration, 0.0, 1.0);
        case FadeOut =>
          counter := counter + 1.0 / 60.0;
          counter := Min(counter, duration);
          alpha := Clamp(counter / duration, 0.0, 1.0);
      }
    }
  }
}
