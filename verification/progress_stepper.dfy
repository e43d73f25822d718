/**
 The four-step progress bar (components/ProgressStepper.tsx): each step is
 completed, active or upcoming relative to the current step number, and the
 bar's fill is a percentage of the distance from the first to the last step.
 */
module ProgressStepper {

  datatype StepInfo = StepInfo(id: int, name: string)

  /** STAGES, in display order. */
  const Steps: seq<StepInfo> :=
    [StepInfo(1, "Setup"), StepInfo(2, "Ideation"), StepInfo(3, "Refinement"), StepInfo(4, "Final Output")]

  function IsCompleted(current: int, id: int): bool
  {
    current > id
  }

  function IsActive(current: int, id: int): bool
  {
    current == id
  }

  /** How a step is drawn: a tick, a ringed number, or a grey number. */
  datatype Status = Completed | Active | Upcoming

  /** The render's three-way choice, made from the two flags as the component makes it. */
  function StatusOf(current: int, id: int): (r: Status)
    ensures r == Completed <==> current > id
    ensures r == Active <==> current == id
    ensures r == Upcoming <==> id > current
  {
    if IsCompleted(current, id) then Completed
    else if IsActive(current, id) then Active
    else Upcoming
  }

  /** No step is both completed and active. */
  lemma NeverCompletedAndActive(current: int, id: int)
    ensures !(IsCompleted(current, id) && IsActive(current, id))
  {
  }

  /** The ids are 1, 2, 3, 4 in order. */
  lemma StepIdsAreOneToFour()
    ensures |Steps| == 4
    ensures forall i :: 0 <= i < |Steps| ==> Steps[i].id == i + 1
  {
  }

  /** How many of `steps` are drawn active for the current step number. */
  function ActiveCount(current: int, steps: seq<StepInfo>): nat
  {
    if |steps| == 0 then 0
    else (if IsActive(current, steps[0].id) then 1 else 0) + ActiveCount(current, steps[1..])
  }

  /** For a current step number from 1 to 4, exactly one step is active; otherwise none is. */
  lemma ExactlyOneActive(current: int)
    ensures 1 <= current <= 4 ==> ActiveCount(current, Steps) == 1
    ensures !(1 <= current <= 4) ==> ActiveCount(current, Steps) == 0
  {
    var s3 := Steps[1..];
    var s2 := s3[1..];
    var s1 := s2[1..];
    assert s1 == [StepInfo(4, "Final Output")] && s1[1..] == [];
    assert ActiveCount(current, s1) == (if current == 4 then 1 else 0);
    assert ActiveCount(current, s2) == (if 3 <= current <= 4 then 1 else 0);
    assert ActiveCount(current, s3) == (if 2 <= current <= 4 then 1 else 0);
  }

  /** progressPercentage: (current - 1) / (number of steps - 1) * 100, over the reals. */
  function ProgressPercentage(current: int): real
  {
    ((current - 1) as real / (|Steps| - 1) as real) * 100.0
  }

  /** The bar is empty at step 1, full at step 4, and grows strictly with the step number. */
  lemma ProgressPercentageBounds(a: int, b: int)
    ensures ProgressPercentage(1) == 0.0
    ensures ProgressPercentage(4) == 100.0
    ensures a < b ==> ProgressPercentage(a) < ProgressPercentage(b)
  {
  }
}
