/**
 * The loading-screen ticker of components/GeneratorModal.tsx: while a script is
 * being generated, the step shown advances once per interval tick and stays on
 * the last of the five loading messages.
 */
module LoadingSteps {

  /** The number of loading messages. */
  const StepCount: nat := 5

  /**
   * One interval tick: the next message, or the same one once the last is shown.
   * The step only grows, and a step that indexes a message still does afterwards.
   */
  function NextStep(prev: nat): (r: nat)
    ensures prev <= r <= prev + 1
    ensures r == prev <==> prev >= StepCount - 1
    ensures prev < StepCount ==> r < StepCount
  {
    if prev < StepCount - 1 then prev + 1 else prev
  }

  /** The step shown after `ticks` interval ticks since generation began at step 0. */
  function StepAfter(ticks: nat): (r: nat)
    ensures r < StepCount
  {
    if ticks == 0 then 0 else NextStep(StepAfter(ticks - 1))
  }

  /**
   * The ticker counts up one message per tick and then holds the last one:
   * after `ticks` ticks it shows message min(ticks, StepCount - 1).
   */
  lemma {:induction false} StepAfterSaturates(ticks: nat)
    ensures StepAfter(ticks) == if ticks < StepCount - 1 then ticks else StepCount - 1
  {
    if ticks > 0 {
      StepAfterSaturates(ticks - 1);
    }
  }
}
