// useAnimationController of src/components/hooks/useAnimationController.ts:
// a step counter that starts at 0, advanced by a repeating interval whose
// handle lives in intervalRef. The effect (re)starts or stops the interval;
// IntervalFires is one run of its callback; Tick is the two in turn.

module AnimationController {
  class IntervalController {
    const totalSteps: int
    var currentStep: int
    var isPlaying: bool
    /** intervalRef.current !== null */
    var intervalRunning: bool

    /** With at least one step, the counter stays in [0, totalSteps). */
    predicate Valid()
      reads this
    {
      totalSteps >= 1 ==> 0 <= currentStep < totalSteps
    }

    constructor (totalSteps: int)
      ensures this.totalSteps == totalSteps && currentStep == 0 && !isPlaying && !intervalRunning
      ensures Valid()
    {
      this.totalSteps := totalSteps;
      currentStep := 0;
      isPlaying := false;
      intervalRunning := false;
    }

    /** The effect: playing at or past the last step stops; playing below it starts the interval; else it stops. */
    method Effect()
      modifies this
      ensures currentStep == old(currentStep)
      ensures isPlaying == (old(isPlaying) && old(currentStep) < totalSteps - 1)
      ensures intervalRunning == isPlaying
    {
      if isPlaying {
        if currentStep >= totalSteps - 1 {
          isPlaying := false;
          intervalRunning := false;
          return;
        }
        intervalRunning := true;
      } else {
        intervalRunning := false;
      }
    }

    /** The interval callback: at or past the last step it stops everything, else it advances one step. */
    method IntervalFires()
      modifies this
      ensures !old(intervalRunning) ==> currentStep == old(currentStep) && isPlaying == old(isPlaying)
                                         && !intervalRunning
      ensures old(intervalRunning) && old(currentStep) >= totalSteps - 1 ==>
                currentStep == old(currentStep) && !isPlaying && !intervalRunning
      ensures old(intervalRunning) && old(currentStep) < totalSteps - 1 ==>
                currentStep == old(currentStep) + 1 && isPlaying == old(isPlaying) && intervalRunning
    {
      if !intervalRunning {
        return;
      }
      if currentStep >= totalSteps - 1 {
        intervalRunning := false;
        isPlaying := false;
      } else {
        currentStep := currentStep + 1;
      }
    }

    /** One beat of playback: the step advances by one until the last step, where playing stops without advancing. */
    method Tick()
      modifies this
      ensures old(isPlaying) && old(currentStep) < totalSteps - 1 ==>
                currentStep == old(currentStep) + 1 && isPlaying
      ensures old(currentStep) >= totalSteps - 1 ==> currentStep == old(currentStep) && !isPlaying
      ensures !old(isPlaying) ==> currentStep == old(currentStep) && !isPlaying && !intervalRunning
      ensures old(Valid()) ==> Valid()
    {
      Effect();
      IntervalFires();
    }

    /** play: restart from 0 only when at or past the last step, then play. */
    method Play()
      modifies this
      ensures currentStep == if old(currentStep) >= totalSteps - 1 then 0 else old(currentStep)
      ensures isPlaying && intervalRunning == old(intervalRunning)
      ensures old(Valid()) ==> Valid()
    {
      if currentStep >= totalSteps - 1 {
        currentStep := 0;
      }
      isPlaying := true;
    }

    /** pause only stops playback; the next effect stops the interval. */
    method Pause()
      modifies this
      ensures currentStep == old(currentStep) && !isPlaying && intervalRunning == old(intervalRunning)
    {
      isPlaying := false;
    }

    method Reset()
      modifies this
      ensures currentStep == 0 && !isPlaying && intervalRunning == old(intervalRunning)
      ensures Valid()
    {
      isPlaying := false;
      currentStep := 0;
    }

    /** setStepManually always stops playback, and moves only to a step in [0, totalSteps). */
    method SetStepManually(newStep: int)
      modifies this
      ensures !isPlaying && intervalRunning == old(intervalRunning)
      ensures currentStep == if 0 <= newStep < totalSteps then newStep else old(currentStep)
      ensures old(Valid()) ==> Valid()
    {
      isPlaying := false;
      if newStep >= 0 && newStep < totalSteps {
        currentStep := newStep;
      }
    }
  }

  /** From a fresh controller with n >= 1 steps, play and n - 1 ticks reach the last step; one more stops playback there. */
  method PlayThrough(n: int) returns (c: IntervalController)
    requires n >= 1
    ensures c.totalSteps == n && c.currentStep == n - 1 && !c.isPlaying
  {
    c := new IntervalController(n);
    c.Play();
    var k := 0;
    while k < n - 1
      invariant 0 <= k <= n - 1
      invariant c.totalSteps == n && c.currentStep == k && c.isPlaying
      modifies c
    {
      c.Tick();
      k := k + 1;
    }
    c.Tick();
  }
}
