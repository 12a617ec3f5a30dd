/**
 * The progress indicator of the wizard: one segment per step, each classified against the
 * current step as completed, current or pending.
 */
module StepIndicator {
  import opened Wrappers

  /** How a segment's label is coloured: current, completed (with a check mark) or pending. */
  datatype Tone = CurrentTone | CompletedTone | PendingTone

  datatype Segment = Segment(step: int, caption: Option<string>, completed: bool, current: bool, filled: bool, checkMark: bool, tone: Tone)

  /** `Array.from({ length })`: a negative length makes no segments. */
  function SegmentCount(totalSteps: int): (n: nat)
    ensures totalSteps >= 0 ==> n == totalSteps
    ensures totalSteps < 0 ==> n == 0
  {
    if totalSteps > 0 then totalSteps else 0
  }

  /** The segment at index `i`: step `i + 1`, labelled `labels[i]` when there is one. */
  function SegmentAt(currentStep: int, labels: seq<string>, i: nat): Segment {
    var step := i + 1;
    var isCompleted := step < currentStep;
    var isCurrent := step == currentStep;
    Segment(
      step,
      if i < |labels| then Some(labels[i]) else None,
      isCompleted,
      isCurrent,
      isCompleted || isCurrent,
      isCompleted,
      if isCurrent then CurrentTone else if isCompleted then CompletedTone else PendingTone)
  }

  /** The segments `StepIndicator` draws. */
  function Segments(currentStep: int, totalSteps: int, labels: seq<string>): (r: seq<Segment>)
    ensures |r| == SegmentCount(totalSteps)
    ensures forall i :: 0 <= i < |r| ==> r[i] == SegmentAt(currentStep, labels, i)
  {
    seq(SegmentCount(totalSteps), i requires 0 <= i < SegmentCount(totalSteps) => SegmentAt(currentStep, labels, i))
  }

  /** Each segment is numbered after its position and labelled from the list, and its state is decided by comparing steps. */
  lemma SegmentClassification(currentStep: int, totalSteps: int, labels: seq<string>, i: int)
    requires 0 <= i < |Segments(currentStep, totalSteps, labels)|
    ensures var s := Segments(currentStep, totalSteps, labels)[i];
      && s.step == i + 1
      && (i < |labels| ==> s.caption == Some(labels[i]))
      && (s.completed <==> s.step < currentStep)
      && (s.current <==> s.step == currentStep)
      && (s.filled <==> s.step <= currentStep)
      && !(s.completed && s.current)
      && (s.checkMark ==> s.completed)
      && (s.tone == CurrentTone <==> s.current)
      && (s.tone == CompletedTone <==> s.completed)
  {
  }

  /** At most one segment is current. */
  lemma AtMostOneCurrent(currentStep: int, totalSteps: int, labels: seq<string>, i: int, j: int)
    requires 0 <= i < j < |Segments(currentStep, totalSteps, labels)|
    ensures !(Segments(currentStep, totalSteps, labels)[i].current && Segments(currentStep, totalSteps, labels)[j].current)
  {
  }

  /** The number of completed segments. */
  function CountCompleted(segments: seq<Segment>): nat {
    if segments == [] then 0 else (if segments[0].completed then 1 else 0) + CountCompleted(segments[1..])
  }

  /** The number of filled bars. */
  function CountFilled(segments: seq<Segment>): nat {
    if segments == [] then 0 else (if segments[0].filled then 1 else 0) + CountFilled(segments[1..])
  }

  function Clamp(x: int, hi: nat): nat {
    if x < 0 then 0 else if x > hi then hi else x
  }

  /** The segments from index `from` on, as `Segments` draws them. */
  function SegmentsFrom(currentStep: int, labels: seq<string>, from: nat, count: nat): (r: seq<Segment>)
    requires from <= count
    ensures |r| == count - from
    ensures forall i :: 0 <= i < |r| ==> r[i] == SegmentAt(currentStep, labels, from + i)
    decreases count - from
  {
    if from == count then [] else [SegmentAt(currentStep, labels, from)] + SegmentsFrom(currentStep, labels, from + 1, count)
  }

  lemma {:induction false} CountsFrom(currentStep: int, labels: seq<string>, from: nat, count: nat)
    requires from <= count
    ensures CountCompleted(SegmentsFrom(currentStep, labels, from, count)) == Clamp(currentStep - 1 - from, count - from)
    ensures CountFilled(SegmentsFrom(currentStep, labels, from, count)) == Clamp(currentStep - from, count - from)
    decreases count - from
  {
    if from < count {
      CountsFrom(currentStep, labels, from + 1, count);
      var r := SegmentsFrom(currentStep, labels, from, count);
      assert r[1..] == SegmentsFrom(currentStep, labels, from + 1, count);
    }
  }

  /** Exactly the steps before the current one are completed, and the bars up to it are filled. */
  lemma CompletedAndFilledCounts(currentStep: int, totalSteps: int, labels: seq<string>)
    ensures CountCompleted(Segments(currentStep, totalSteps, labels)) == Clamp(currentStep - 1, SegmentCount(totalSteps))
    ensures CountFilled(Segments(currentStep, totalSteps, labels)) == Clamp(currentStep, SegmentCount(totalSteps))
  {
    var n := SegmentCount(totalSteps);
    CountsFrom(currentStep, labels, 0, n);
    assert SegmentsFrom(currentStep, labels, 0, n) == Segments(currentStep, totalSteps, labels);
  }
}
