/** The stepped worked example: a counter of revealed steps that one button
    advances until every step is shown. */
module SteppedExample {

  /** The counter after one press of "Show Next Step" with `n` steps. */
  function Press(visible: nat, n: nat): (r: nat)
    ensures visible < n ==> r == visible + 1
    ensures visible >= n ==> r == visible
  {
    if visible < n then visible + 1 else visible
  }

  /** The counter after `k` presses. */
  function AfterPresses(visible: nat, n: nat, k: nat): nat
    decreases k
  {
    if k == 0 then visible else AfterPresses(Press(visible, n), n, k - 1)
  }

  function Min(a: nat, b: nat): nat { if a <= b then a else b }

  /** Step `idx` (0-based) is on screen. */
  predicate StepShown(idx: nat, visible: nat) { idx < visible }

  /** The connector below step `idx`: every shown step but the last. */
  predicate ConnectorShown(idx: nat, visible: nat, n: nat) { idx + 1 < n && idx < visible }

  /** The "Show Next Step" button is on screen. */
  predicate NextButtonShown(visible: nat, n: nat) { visible < n }

  /** The "Example Complete" banner is on screen. */
  predicate CompleteShown(visible: nat, n: nat) { visible == n }

  /** Starting anywhere up to `n`, `k` presses reveal `k` more steps, never
      more than there are. */
  lemma {:induction false} AfterPressesIsMin(visible: nat, n: nat, k: nat)
    requires visible <= n
    ensures AfterPresses(visible, n, k) == Min(visible + k, n)
    decreases k
  {
    if k > 0 {
      AfterPressesIsMin(Press(visible, n), n, k - 1);
    }
  }

  /** From the start, after `k` presses step `idx` is shown exactly when it
      is among the first `k` steps that exist. */
  lemma PressesReveal(n: nat, k: nat, idx: nat)
    ensures StepShown(idx, AfterPresses(0, n, k)) <==> idx < k && idx < n
  {
    AfterPressesIsMin(0, n, k);
  }

  /** Within range, exactly one of the button and the banner is shown; the
      banner appears once `n` presses have been made. */
  lemma ExactlyOneControl(visible: nat, n: nat)
    requires visible <= n
    ensures NextButtonShown(visible, n) != CompleteShown(visible, n)
  {
  }

  lemma CompleteAfterAllSteps(n: nat, k: nat)
    requires k >= n
    ensures CompleteShown(AfterPresses(0, n, k), n)
    ensures !NextButtonShown(AfterPresses(0, n, k), n)
  {
    AfterPressesIsMin(0, n, k);
  }

  /** A shown step, and the connector below it, stay shown after a press. */
  lemma PressKeepsShown(idx: nat, visible: nat, n: nat)
    requires StepShown(idx, visible)
    ensures StepShown(idx, Press(visible, n))
    ensures ConnectorShown(idx, visible, n) ==> ConnectorShown(idx, Press(visible, n), n)
  {
  }

  /** From the start, after `k` presses the connector below step `idx` is
      shown exactly when that step is among the first `k` and is not the
      last step. */
  lemma ConnectorsReveal(n: nat, k: nat, idx: nat)
    ensures ConnectorShown(idx, AfterPresses(0, n, k), n) <==> idx < k && idx + 1 < n
  {
    AfterPressesIsMin(0, n, k);
  }

  /** One example block on screen. */
  class Stepper {
    const steps: seq<string>
    var visibleSteps: nat

    ghost predicate Valid()
      reads this
    {
      visibleSteps <= |steps|
    }

    constructor(s: seq<string>)
      ensures steps == s && visibleSteps == 0
      ensures Valid()
    {
      steps := s;
      visibleSteps := 0;
    }

    /** Reveals one more step while any is hidden. */
    method ShowNext()
      requires Valid()
      modifies this
      ensures Valid()
      ensures visibleSteps == Press(old(visibleSteps), |steps|)
    {
      if visibleSteps < |steps| {
        visibleSteps := visibleSteps + 1;
      }
    }
  }
}
