/** TitleScene.cpp / TitleScene.h: the title screen. It fades in, then bobs a title model
    up and down until Space is held, then fades out and raises its finished flag. The
    model, the camera and drawing are engine objects; the bob's sine value is given to
    Update as a number. */
module TitleScene {
  import opened Numeric
  import Fade

  /** TitleScene::Phase. */
  datatype Phase = FadeIn | Main | FadeOut

  /** The position of a phase in the order FadeIn, Main, FadeOut. */
  function Rank(p: Phase): nat
  {
    match p
    case FadeIn => 0
    case Main => 1
    case FadeOut => 2
  }

  const FadeDuration: real := 1.0
  const Amplitude: real := 0.1
  const BobSpeed: real := 2.0

  /** The title's height for a sine value s standing for sin(time * speed). */
  function BobHeight(s: real): (r: real)
    requires -1.0 <= s <= 1.0
    ensures -Amplitude <= r <= Amplitude
    ensures s == 0.0 ==> r == 0.0
    ensures s == 1.0 ==> r == Amplitude
    ensures s == -1.0 ==> r == -Amplitude
  {
    s * Amplitude
  }

  /** A higher sine value gives a higher title. */
  lemma {:induction false} BobHeightMonotone(s1: real, s2: real)
    requires -1.0 <= s1 <= s2 <= 1.0
    ensures BobHeight(s1) <= BobHeight(s2)
  {
    MulMonotoneLeft(Amplitude, s1, s2);
  }

  class TitleScene {
    var phase: Phase
    var time: real
    var finished: bool
    /** worldTransform_.translation_.y. */
    var bobY: real
    var fade: Fade.Fade

    /** Every fade the scene starts lasts kFadeDuration, the bob stays within its
        amplitude, and the scene only finishes while fading out. The fade runs in the
        scene's phase: fading in during FadeIn, off once the fade-in has completed, and
        fading out during FadeOut. */
    ghost predicate Valid()
      reads this, fade
    {
      && fade.Valid()
      && fade.duration == FadeDuration
      && -Amplitude <= bobY <= Amplitude
      && (finished ==> phase == FadeOut)
      && (phase == FadeIn ==> fade.status == Fade.Status.FadeIn)
      && (phase == Main ==> fade.status == Fade.Status.None)
      && (phase == FadeOut ==> fade.status == Fade.Status.FadeOut)
    }

    /** IsFinished(). */
    function IsFinished(): (r: bool)
      reads this, fade
      ensures Valid() && r ==> phase == FadeOut
    {
      finished
    }

    /** The default members and Initialize: the title sits at the origin, and a fade-in
        of kFadeDuration is started. */
    constructor ()
      ensures Valid() && fresh(fade)
      ensures phase == FadeIn && time == 0.0 && !finished && bobY == 0.0
      ensures fade.status == Fade.Status.FadeIn && fade.counter == 0.0
    {
      var f := new Fade.Fade();
      f.Start(Fade.Status.FadeIn, FadeDuration);
      phase := FadeIn;
      time := 0.0;
      finished := false;
      bobY := 0.0;
      fade := f;
    }

    /** Update for one frame. space is whether Space is held; sine stands for
        sin(time_ * speed) taken after time_ has advanced, and is used only in Main. */
    method Update(space: bool, sine: real)
      requires Valid() && -1.0 <= sine <= 1.0
      modifies this, fade
      ensures Valid() && fade == old(fade)
      // Phases only move forward, one at a time, and the finished flag is never cleared.
      ensures Rank(old(phase)) <= Rank(phase) <= Rank(old(phase)) + 1
      ensures old(finished) ==> finished
      ensures old(phase) == FadeIn ==>
                && (phase == Main <==> fade.IsFinished())
                && (phase == FadeIn || phase == Main)
                && time == old(time) && bobY == old(bobY) && finished == old(finished)
                && fade.counter == Min(old(fade.counter) + FrameTime, FadeDuration)
      ensures old(phase) == Main ==>
                && time == old(time) + FrameTime
                && bobY == BobHeight(sine)
                && finished == old(finished)
                && (space ==> phase == FadeOut && fade.status == Fade.Status.FadeOut && fade.counter == 0.0)
                && (!space ==> phase == Main && fade.status == old(fade.status) && fade.counter == old(fade.counter))
      ensures old(phase) == FadeOut ==>
                && phase == FadeOut && time == old(time) && bobY == old(bobY)
                && fade.counter == Min(old(fade.counter) + FrameTime, FadeDuration)
                && (finished <==> old(finished) || fade.counter >= FadeDuration)
    {
      match phase {
        case FadeIn =>
          var _ := fade.Update();
          if fade.IsFinished() {
            phase := Main;
          }
        case Main =>
          time := time + 1.0 / 60.0;
          bobY := BobHeight(sine);
          if space {
            fade.Start(Fade.Status.FadeOut, FadeDuration);
            phase := FadeOut;
          }
        case FadeOut =>
          var _ := fade.Update();
          if fade.IsFinished() {
            finished := true;
          }
      }
    }
  }
}
