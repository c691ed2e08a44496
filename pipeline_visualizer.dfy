/** The step classifier of the pipeline visualizer (components/PipelineVisualizer.tsx):
    for the session's current stage, each of the three step cards is drawn as
    pending, active or done, and shows a spinner, a check mark or its own icon.
    Both choices are pure functions of (stage, step). */
module PipelineVisualizer {
  import opened Types

  /** The three class strings `getStatusColor` returns: slate (pending),
      pulsing blue (active) and emerald (done). */
  datatype Status = Pending | Active | Done

  /** The icon drawn inside a step card. */
  datatype StepIcon = Spinner | Check | OwnIcon

  /** The step ids in drawing order; the classifier ranks stages by the same order. */
  const Order: seq<PipelineStage> := [Segmentation, Warping, Generation]

  /** `Array.prototype.indexOf`: the first position of `x` in `s`, or -1 when absent. */
  function IndexOf<T(==)>(s: seq<T>, x: T): (r: int)
    ensures -1 <= r < |s|
    ensures r == -1 <==> x !in s
    ensures 0 <= r ==> s[r] == x && forall j :: 0 <= j < r ==> s[j] != x
  {
    if |s| == 0 then -1
    else if s[0] == x then 0
    else
      var k := IndexOf(s[1..], x);
      if k == -1 then -1 else k + 1
  }

  /** `getStatusColor(stepId)` while the session is in `stage`. */
  function StatusColor(stage: PipelineStage, stepId: PipelineStage): (r: Status)
    ensures stage == Idle || stage == Error ==> r == Pending
    ensures stage == Complete ==> r == Done
    ensures stepId in Order ==> (r == Active <==> stepId == stage)
  {
    if stage == Idle || stage == Error then Pending
    else if stage == Complete then Done
    else
      var currentIndex := IndexOf(Order, stage);
      var stepIndex := IndexOf(Order, stepId);
      if stepIndex < currentIndex then Done
      else if stepIndex == currentIndex then Active
      else Pending
  }

  /** The icon of the card for `stepId`: a spinner for the current stage, a check
      mark once everything is complete or when the card is drawn as done (the
      emerald class), and otherwise the step's own icon. */
  function Icon(stage: PipelineStage, stepId: PipelineStage): (r: StepIcon)
    ensures r == Spinner <==> stepId == stage
    ensures stepId in Order && stage == Complete ==> r == Check
    ensures stepId in Order && (stage == Idle || stage == Error) ==> r == OwnIcon
  {
    var isActive := stage == stepId;
    var isComplete := stage == Complete;
    if isActive then Spinner
    else if isComplete || (stepId != stage && StatusColor(stage, stepId) == Done) then Check
    else OwnIcon
  }

  // ---------------------------------------------------------------------------
  // Reference definition: how far a run has progressed, counted in steps.

  /** The number of steps finished on reaching `stage` along
      SEGMENTATION -> WARPING -> GENERATION -> COMPLETE. */
  function Progress(stage: PipelineStage): nat {
    match stage
    case Segmentation => 0
    case Warping => 1
    case Generation => 2
    case Complete => 3
    case Idle => 0
    case Error => 0
  }

  /** A stage a successful run passes through after it has started. */
  predicate OnRunPath(stage: PipelineStage) {
    IsWorking(stage) || stage == Complete
  }

  /** The status the step at position `i` should have: nothing is under way in
      IDLE or ERROR; otherwise the steps before the progress mark are done, the
      one at the mark is active and the rest are pending. */
  function ExpectedStatus(stage: PipelineStage, i: nat): Status {
    if !OnRunPath(stage) then Pending
    else if i < Progress(stage) then Done
    else if i == Progress(stage) then Active
    else Pending
  }

  /** The positions `lo`, ..., `hi - 1`. */
  function Range(lo: nat, hi: nat): (r: set<nat>)
    decreases hi - lo
    ensures forall x :: x in r <==> lo <= x < hi
  {
    if lo >= hi then {} else {lo} + Range(lo + 1, hi)
  }

  /** The positions of the steps drawn with the given status. */
  function StepsWith(stage: PipelineStage, status: Status): set<nat> {
    set i: nat | i < |Order| && StatusColor(stage, Order[i]) == status
  }

  // ---------------------------------------------------------------------------
  // Properties of the classifier.

  /** The step order holds each stage once, so `indexOf` finds a step at its own position. */
  lemma IndexOfStep(i: nat)
    requires i < |Order|
    ensures IndexOf(Order, Order[i]) == i
  {
    var r := IndexOf(Order, Order[i]);
    assert r <= i;
    assert Order[r] == Order[i];
  }

  /** Past the two early returns the current index is a real position
      (never -1), and it is how far the run has progressed. */
  lemma CurrentIndexOfWorkingStage(stage: PipelineStage)
    requires IsWorking(stage)
    ensures 0 <= IndexOf(Order, stage) == Progress(stage) < |Order|
  {
    IndexOfStep(Progress(stage));
  }

  /** The classifier agrees with the reference definition on every step. */
  lemma StatusMatchesReference(stage: PipelineStage, i: nat)
    requires i < |Order|
    ensures StatusColor(stage, Order[i]) == ExpectedStatus(stage, i)
  {
    if IsWorking(stage) {
      CurrentIndexOfWorkingStage(stage);
      IndexOfStep(i);
    }
  }

  /** In IDLE and ERROR every step is pending. */
  lemma IdleOrErrorAllPending(stage: PipelineStage)
    requires stage == Idle || stage == Error
    ensures StepsWith(stage, Pending) == Range(0, |Order|)
  {
  }

  /** In COMPLETE every step is done. */
  lemma CompleteAllDone()
    ensures StepsWith(Complete, Done) == Range(0, |Order|)
  {
  }

  /** The status of the step at position `i` in a working stage, relative to
      the current index. */
  lemma StatusInWorkingStage(stage: PipelineStage, i: nat)
    requires IsWorking(stage) && i < |Order|
    ensures StatusColor(stage, Order[i]) ==
      if i < IndexOf(Order, stage) then Done
      else if i == IndexOf(Order, stage) then Active
      else Pending
  {
    CurrentIndexOfWorkingStage(stage);
    StatusMatchesReference(stage, i);
  }

  /** In a working stage the steps before it are done, its own step is active
      and the steps after it are pending. */
  lemma WorkingStageSplit(stage: PipelineStage)
    requires IsWorking(stage)
    ensures StepsWith(stage, Done) == Range(0, IndexOf(Order, stage))
    ensures StepsWith(stage, Active) == {IndexOf(Order, stage)}
    ensures StepsWith(stage, Pending) == Range(IndexOf(Order, stage) + 1, |Order|)
  {
    var k := IndexOf(Order, stage);
    CurrentIndexOfWorkingStage(stage);
    forall i: nat | i < |Order| ensures StatusColor(stage, Order[i]) ==
      if i < k then Done else if i == k then Active else Pending
    {
      StatusInWorkingStage(stage, i);
    }
    assert StepsWith(stage, Done) == Range(0, k);
    assert StepsWith(stage, Active) == {k};
    assert StepsWith(stage, Pending) == Range(k + 1, |Order|);
  }

  /** Exactly one step is active while a run is in progress, and none otherwise. */
  lemma ExactlyOneActive(stage: PipelineStage)
    ensures |StepsWith(stage, Active)| == if IsWorking(stage) then 1 else 0
  {
    if IsWorking(stage) {
      WorkingStageSplit(stage);
    } else {
      assert StepsWith(stage, Active) == {};
    }
  }

  /** Along SEGMENTATION -> WARPING -> GENERATION -> COMPLETE the done steps
      only grow, and a step that has become active is never pending again. */
  lemma DoneStepsOnlyGrow(earlier: PipelineStage, later: PipelineStage)
    requires OnRunPath(earlier) && OnRunPath(later)
    requires Progress(earlier) <= Progress(later)
    ensures StepsWith(earlier, Done) <= StepsWith(later, Done)
    ensures forall i: nat :: i < |Order| && StatusColor(earlier, Order[i]) == Active ==>
      StatusColor(later, Order[i]) != Pending
  {
    forall i: nat | i < |Order|
      ensures StatusColor(earlier, Order[i]) == ExpectedStatus(earlier, i)
      ensures StatusColor(later, Order[i]) == ExpectedStatus(later, i)
    {
      StatusMatchesReference(earlier, i);
      StatusMatchesReference(later, i);
    }
  }

  /** The spinner is shown exactly on the active step, the check mark exactly
      on the done steps, and every other step shows its own icon. */
  lemma IconFollowsStatus(stage: PipelineStage, i: nat)
    requires i < |Order|
    ensures Icon(stage, Order[i]) == Spinner <==> Order[i] == stage
    ensures Icon(stage, Order[i]) == Spinner <==> StatusColor(stage, Order[i]) == Active
    ensures Icon(stage, Order[i]) == Check <==> ExpectedStatus(stage, i) == Done
    ensures Icon(stage, Order[i]) == OwnIcon <==> ExpectedStatus(stage, i) == Pending
  {
    StatusMatchesReference(stage, i);
    if IsWorking(stage) {
      CurrentIndexOfWorkingStage(stage);
    }
  }
}
