/** The progress indicator shown while a video is generated: a step counter
    that advances on every tick and wraps around, and the per-step display. */
module LoadingSpinner {

  /** The counter after one tick: the next step, or back to the first after the last. */
  function NextStep(current: int, count: nat): (next: int)
    ensures current < count - 1 ==> next == current + 1
    ensures current >= count - 1 ==> next == 0
  {
    if current < count - 1 then current + 1 else 0
  }

  /** The counter after `n` ticks. */
  function StepAfter(current: int, count: nat, n: nat): int
    decreases n
  {
    if n == 0 then current else StepAfter(NextStep(current, count), count, n - 1)
  }

  /** A counter in range stays in range, whatever the number of ticks. */
  lemma {:induction false} TicksStayInRange(current: int, count: nat, n: nat)
    requires 0 <= current && (current < count || current == 0)
    ensures var c := StepAfter(current, count, n); 0 <= c && (c < count || c == 0)
    decreases n
  {
    if n > 0 {
      TicksStayInRange(NextStep(current, count), count, n - 1);
    }
  }

  /** Ticks compose: `a` ticks and then `b` more are `a + b` ticks. */
  lemma {:induction false} TicksCompose(current: int, count: nat, a: nat, b: nat)
    ensures StepAfter(current, count, a + b) == StepAfter(StepAfter(current, count, a), count, b)
    decreases a
  {
    if a > 0 {
      TicksCompose(NextStep(current, count), count, a - 1, b);
    }
  }

  /** Before the last step is reached, each tick moves to the next step. */
  lemma {:induction false} TicksCountUp(current: int, count: nat, n: nat)
    requires 0 <= current && current + n < count
    ensures StepAfter(current, count, n) == current + n
    decreases n
  {
    if n > 0 {
      TicksCountUp(current + 1, count, n - 1);
    }
  }

  /** A full cycle of `count` ticks brings any step in range back to itself. */
  lemma FullCycleReturns(current: nat, count: nat)
    requires current < count
    ensures StepAfter(current, count, count) == current
  {
    var toLast := count - 1 - current;
    TicksCountUp(current, count, toLast);
    TicksCompose(current, count, toLast, 1);
    assert StepAfter(current, count, toLast + 1) == 0;
    TicksCountUp(0, count, current);
    TicksCompose(current, count, toLast + 1, current);
  }

  /** Starting from the first step, as many ticks as there are steps come back to it. */
  lemma FullCycleReturnsToStart(count: nat)
    requires count >= 1
    ensures StepAfter(0, count, count) == 0
  {
    FullCycleReturns(0, count);
  }

  /** With at most one step the counter never leaves 0. */
  lemma {:induction false} SingleStepStaysAtZero(count: nat, n: nat)
    requires count <= 1
    ensures StepAfter(0, count, n) == 0
  {
    if n > 0 {
      SingleStepStaysAtZero(count, n - 1);
    }
  }

  datatype StepState = Done | Active | Pending

  /** How step `k` is drawn: a check mark, the spinner, or an empty circle. */
  function StateOf(k: nat, current: int): (s: StepState)
    ensures s == Done <==> k < current
    ensures s == Active <==> k == current
    ensures s == Pending <==> k > current
  {
    if k < current then Done else if k == current then Active else Pending
  }

  /** Whether step `k` is drawn at full opacity and in the foreground colour. */
  function Emphasised(k: nat, current: int): (e: bool)
    ensures e <==> StateOf(k, current) != Pending
  {
    k <= current
  }

  /** The states of steps `from` .. `count - 1`. */
  function States(from: nat, count: nat, current: int): (states: seq<StepState>)
    requires from <= count
    ensures |states| == count - from
    ensures forall i :: 0 <= i < |states| ==> states[i] == StateOf(from + i, current)
    decreases count - from
  {
    if from == count then [] else [StateOf(from, current)] + States(from + 1, count, current)
  }

  function ActiveCount(states: seq<StepState>): nat
  {
    if states == [] then 0 else (if states[0] == Active then 1 else 0) + ActiveCount(states[1..])
  }

  /** Exactly one step is active when the counter is in range, none otherwise. */
  lemma {:induction false} OneActiveStep(from: nat, count: nat, current: int)
    requires from <= count
    ensures ActiveCount(States(from, count, current)) == if from <= current < count then 1 else 0
    decreases count - from
  {
    if from < count {
      OneActiveStep(from + 1, count, current);
      assert States(from, count, current)[1..] == States(from + 1, count, current);
    }
  }

  class Spinner {
    const count: nat
    var currentStep: int

    ghost predicate Valid()
      reads this
    {
      0 <= currentStep && (currentStep < count || currentStep == 0)
    }

    constructor (steps: nat)
      ensures Valid() && count == steps && currentStep == 0
    {
      count := steps;
      currentStep := 0;
    }

    /** One firing of the interval timer. */
    method Tick()
      requires Valid()
      modifies this
      ensures Valid()
      ensures currentStep == NextStep(old(currentStep), count)
    {
      if currentStep < count - 1 {
        currentStep := currentStep + 1;
      } else {
        currentStep := 0;
      }
    }
  }
}
