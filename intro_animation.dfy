/** The intro overlay (app/components/IntroAnimation.tsx): a logo shown for
    3.5 seconds with a loading bar. Two 16 ms intervals read the clock; one
    reports completion, the other the loading progress; a timeout fades the
    logo out half a second before the end. Clock readings are inputs. */
module Intro {
  import opened Wrappers

  /** How long the logo is shown, in milliseconds. */
  const Duration: int := 3500

  /** When the fade-out timeout fires, relative to the effect's run. */
  const FadeOutDelay: int := Duration - 500

  /** `elapsed / duration >= 1`: the completion test of a tick. */
  function TickCompletes(elapsed: int): (done: bool)
    ensures done <==> elapsed >= Duration
  {
    elapsed as real / Duration as real >= 1.0
  }

  /** `elapsed / duration`, with no clamp. */
  function LoadingProgress(elapsed: int): (p: real)
    ensures p * Duration as real == elapsed as real
    ensures 0 <= elapsed ==> 0.0 <= p
    ensures p > 1.0 <==> elapsed > Duration
  {
    elapsed as real / Duration as real
  }

  class IntroAnimation {
    var logoOpacity: real
    var showLogo: bool
    var loadingProgress: real
    /** The clock reading of the first render. */
    const startTime: int

    constructor (now: int)
      ensures startTime == now && logoOpacity == 1.0 && showLogo && loadingProgress == 0.0
    {
      startTime := now;
      logoOpacity := 1.0;
      showLogo := true;
      loadingProgress := 0.0;
    }

    /** The completion interval's tick at clock reading `now`; `completed` is
        whether it called `onComplete`. The interval is not cleared on
        completion, so every tick from 3500 ms on calls it again. */
    method Tick(now: int) returns (completed: bool)
      modifies this
      ensures completed <==> now - startTime >= Duration
      ensures completed ==> !showLogo
      ensures !completed ==> showLogo == old(showLogo)
      ensures logoOpacity == old(logoOpacity) && loadingProgress == old(loadingProgress)
    {
      var elapsed := now - startTime;
      var progress := elapsed as real / Duration as real;
      completed := false;
      if progress >= 1.0 {
        showLogo := false;
        completed := true;
      }
    }

    /** The fade-out timeout, scheduled `FadeOutDelay` ms after the effect
        runs. The model takes the firing of each timer as an input: a parent
        that passes a new `onComplete` on every render restarts the effect,
        and with it this timeout and the completion interval; the loading
        interval belongs to an effect that runs once. */
    method FadeOut()
      modifies this
      ensures logoOpacity == 0.0
      ensures showLogo == old(showLogo) && loadingProgress == old(loadingProgress)
    {
      logoOpacity := 0.0;
    }

    /** The loading interval's tick at clock reading `now`. */
    method LoadingTick(now: int)
      modifies this
      ensures loadingProgress == LoadingProgress(now - startTime)
      ensures showLogo == old(showLogo) && logoOpacity == old(logoOpacity)
    {
      var elapsed := now - startTime;
      loadingProgress := elapsed as real / Duration as real;
    }

    /** What is rendered: nothing once hidden, otherwise the overlay at the
        current opacity. */
    function Render(): (r: Option<real>)
      reads this
      ensures r.None? <==> !showLogo
      ensures r.Some? ==> r.value == logoOpacity
    {
      if showLogo then Some(logoOpacity) else None
    }
  }
}
