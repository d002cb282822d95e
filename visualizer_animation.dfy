// useAnimationController of src/components/visualizers/utils.ts: a step
// counter that starts at -1 ("not started"), with play, pause, reset,
// setStepManually and the timer that advances it. The effect plus the
// timeout it schedules is one Tick.

module VisualizerAnimation {
  class StepController {
    const totalSteps: int
    var step: int
    var isPlaying: bool

    /** With at least one step, the counter stays between -1 and the last step. */
    predicate Valid()
      reads this
    {
      totalSteps >= 1 ==> -1 <= step <= totalSteps - 1
    }

    constructor (totalSteps: int)
      ensures this.totalSteps == totalSteps && step == -1 && !isPlaying
      ensures Valid()
    {
      this.totalSteps := totalSteps;
      step := -1;
      isPlaying := false;
    }

    /**
     * The effect and its timeout: while playing below the last step the
     * step advances by exactly one; at or past the last step playing stops.
     */
    method Tick()
      modifies this
      ensures old(isPlaying) && old(step) < totalSteps - 1 ==> step == old(step) + 1 && isPlaying
      ensures old(step) >= totalSteps - 1 ==> step == old(step) && !isPlaying
      ensures !old(isPlaying) ==> step == old(step) && !isPlaying
      ensures old(Valid()) ==> Valid()
    {
      if !isPlaying || step >= totalSteps - 1 {
        if step >= totalSteps - 1 {
          isPlaying := false;
        }
        return;
      }
      step := step + 1;
    }

    /** play: restart from 0 when finished or not yet started, then play. */
    method Play()
      modifies this
      ensures step == (if old(step) >= totalSteps - 1 || old(step) == -1 then 0 else old(step))
      ensures isPlaying
      ensures old(Valid()) ==> Valid()
    {
      if step >= totalSteps - 1 {
        step := 0;
      } else if step == -1 {
        step := 0;
      }
      isPlaying := true;
    }

    /** pause only stops playback. */
    method Pause()
      modifies this
      ensures step == old(step) && !isPlaying
    {
      isPlaying := false;
    }

    /** reset returns to "not started". */
    method Reset()
      modifies this
      ensures step == -1 && !isPlaying
      ensures Valid()
    {
      isPlaying := false;
      step := -1;
    }

    /** setStepManually always stops playback, and moves only to a step in [-1, totalSteps). */
    method SetStepManually(newStep: int)
      modifies this
      ensures !isPlaying
      ensures step == if -1 <= newStep < totalSteps then newStep else old(step)
      ensures old(Valid()) ==> Valid()
    {
      isPlaying := false;
      if newStep >= -1 && newStep < totalSteps {
        step := newStep;
      }
    }
  }

  /** With no steps at all, play moves the counter to 0, past the last step -1, and the next tick stops it there. */
  method ZeroStepsOvershoot() returns (c: StepController)
    ensures c.totalSteps == 0 && c.step == 0 && !c.isPlaying
    ensures c.step > c.totalSteps - 1
  {
    c := new StepController(0);
    c.Play();
    c.Tick();
  }

  /** From a fresh controller with n >= 1 steps, play and n - 1 ticks reach the last step, still playing. */
  method PlayThrough(n: int) returns (c: StepController)
    requires n >= 1
    ensures c.totalSteps == n && c.step == n - 1 && c.isPlaying
  {
    c := new StepController(n);
    c.Play();
    var k := 0;
    while k < n - 1
      invariant 0 <= k <= n - 1
      invariant c.totalSteps == n && c.step == k && c.isPlaying
      modifies c
    {
      c.Tick();
      k := k + 1;
    }
  }
}
