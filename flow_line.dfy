/** One highlight travelling along a flow line, in its first form: linear
    progress, a fade over the last 30 % of the run, and a completion callback
    invoked directly from the frame that reaches the end. Times are in
    milliseconds and lengths in canvas units, both as exact reals. */
module FlowLine {

  const FadeStartTimeRatio: real := 0.7

  /** Length of the lit segment. */
  function SegmentLength(pathLength: real, segmentLengthRatio: real): real
  {
    pathLength * segmentLengthRatio
  }

  /** The dash offset at `progress`: the lit segment starts just past the end
      of the path and slides towards its start. */
  function DashOffset(pathLength: real, segmentLengthRatio: real, progress: real): (o: real)
    ensures progress == 0.0 ==> o == pathLength
    ensures pathLength > 0.0 && segmentLengthRatio >= 0.0 && 0.0 <= progress < 1.0 ==>
      -SegmentLength(pathLength, segmentLengthRatio) < o <= pathLength
  {
    var travel := pathLength + SegmentLength(pathLength, segmentLengthRatio);
    assert pathLength > 0.0 && segmentLengthRatio >= 0.0 && 0.0 <= progress < 1.0 ==>
      0.0 <= travel * progress < travel * 1.0;
    pathLength - travel * progress
  }

  /** The segment moves steadily: a later progress gives a strictly smaller offset. */
  lemma DashOffsetDecreasing(pathLength: real, segmentLengthRatio: real, p: real, q: real)
    requires pathLength > 0.0 && segmentLengthRatio >= 0.0 && p < q
    ensures DashOffset(pathLength, segmentLengthRatio, q) < DashOffset(pathLength, segmentLengthRatio, p)
  {
    var travel := pathLength + SegmentLength(pathLength, segmentLengthRatio);
    assert travel > 0.0;
    assert travel * q - travel * p == travel * (q - p) > 0.0;
  }

  /** Opacity at `progress`: full until 70 %, then a linear fade. */
  function FadeOpacity(progress: real): (o: real)
    ensures progress <= FadeStartTimeRatio ==> o == 1.0
    ensures FadeStartTimeRatio < progress < 1.0 ==> 0.0 < o < 1.0
    ensures 0.0 <= progress < 1.0 ==> 0.0 < o <= 1.0
  {
    if progress > FadeStartTimeRatio then
      var fadeProgress := (progress - FadeStartTimeRatio) / (1.0 - FadeStartTimeRatio);
      1.0 - fadeProgress
    else
      1.0
  }

  /** Once fading, the line fades strictly; it never brightens again. */
  lemma FadeOpacityDecreasing(p: real, q: real)
    requires p <= q
    ensures FadeOpacity(q) <= FadeOpacity(p)
    ensures FadeStartTimeRatio < p < q ==> FadeOpacity(q) < FadeOpacity(p)
  {
  }

  /** The dash pattern: the lit segment, then a gap as long as the whole
      path, so that one period covers the path and one segment shows at most. */
  function DashArray(pathLength: real, segmentLengthRatio: real): (dash: (real, real))
    ensures dash.1 == pathLength
    ensures pathLength >= 0.0 && segmentLengthRatio >= 0.0 ==> 0.0 <= dash.0 && dash.0 + dash.1 >= pathLength
  {
    (SegmentLength(pathLength, segmentLengthRatio), pathLength)
  }

  /** Opacity handed to the renderer: the animation opacity at 60 %, times the
      layer multiplier. */
  function RenderedOpacity(opacity: real, layerOpacity: real): (o: real)
    ensures 0.0 <= opacity <= 1.0 && 0.0 <= layerOpacity <= 1.0 ==> 0.0 <= o <= 0.6
  {
    var dimmed := opacity * 0.6;
    assert 0.0 <= opacity <= 1.0 && 0.0 <= layerOpacity <= 1.0 ==>
      0.0 <= dimmed <= 0.6 && dimmed * layerOpacity <= dimmed * 1.0;
    dimmed * layerOpacity
  }

  /** The component: its React state (`pathLength`, `offset`, `opacity`), the
      locals of the animation effect (`startTime`, the pending frame) and the
      keys passed to `onAnimationComplete`, in order. */
  class AnimatedFlowLine {
    const animationDuration: real
    const segmentLengthRatio: real
    const animationKey: real
    const layerOpacity: real

    var pathLength: real
    var offset: real
    var opacity: real
    /** 0 stands for "unset": the source tests the start time for falsiness. */
    var startTime: real
    var frameRequested: bool
    var completions: seq<real>
    /** The current run of the animation effect has signalled completion. */
    ghost var completedThisRun: bool

    ghost predicate Valid()
      reads this
    {
      animationDuration > 0.0 && segmentLengthRatio >= 0.0 &&
      pathLength >= 0.0 && startTime >= 0.0 &&
      -SegmentLength(pathLength, segmentLengthRatio) <= offset <= pathLength &&
      0.0 <= opacity <= 1.0 &&
      (frameRequested ==> pathLength > 0.0 && !completedThisRun)
    }

    /** Mounting: nothing measured yet, so the animation effect returns at once. */
    constructor (animationDuration: real, segmentLengthRatio: real, animationKey: real, layerOpacity: real)
      requires animationDuration > 0.0 && segmentLengthRatio >= 0.0
      ensures Valid()
      ensures this.animationDuration == animationDuration && this.segmentLengthRatio == segmentLengthRatio
      ensures this.animationKey == animationKey && this.layerOpacity == layerOpacity
      ensures pathLength == 0.0 && offset == 0.0 && opacity == 1.0
      ensures !frameRequested && completions == []
    {
      this.animationDuration := animationDuration;
      this.segmentLengthRatio := segmentLengthRatio;
      this.animationKey := animationKey;
      this.layerOpacity := layerOpacity;
      pathLength, offset, opacity := 0.0, 0.0, 1.0;
      startTime := 0.0;
      frameRequested := false;
      completions := [];
      completedThisRun := false;
    }

    /** The measuring effect with the measured `length`, followed by what
        React does when `pathLength` changes: the running animation effect is
        cleaned up and run again, which requests a first frame unless the
        length is 0. */
    method Measure(length: real)
      requires Valid() && length >= 0.0
      modifies this
      ensures Valid()
      ensures pathLength == length && offset == length
      ensures opacity == old(opacity) && completions == old(completions)
      ensures length != old(pathLength) ==> frameRequested == (length > 0.0)
      ensures length != old(pathLength) && length > 0.0 ==> startTime == 0.0
      ensures length == old(pathLength) ==> frameRequested == old(frameRequested) && startTime == old(startTime)
      ensures length == 0.0 ==> !frameRequested
    {
      var changed := length != pathLength;
      pathLength := length;
      offset := length;
      if changed {
        frameRequested := false;  // cleanup of the previous run
        if pathLength != 0.0 {
          startTime := 0.0;
          completedThisRun := false;
          frameRequested := true;
        }
      }
    }

    /** One `animate` callback at `currentTime`, for the pending frame. */
    method Frame(currentTime: real)
      requires Valid() && frameRequested && 0.0 <= currentTime && startTime <= currentTime
      modifies this
      ensures Valid() && pathLength == old(pathLength)
      ensures startTime == if old(startTime) == 0.0 then currentTime else old(startTime)
      ensures var progress := (currentTime - startTime) / animationDuration;
        if progress >= 1.0 then
          completions == old(completions) + [animationKey] && !frameRequested &&
          offset == old(offset) && opacity == old(opacity)
        else
          completions == old(completions) && frameRequested &&
          offset == DashOffset(pathLength, segmentLengthRatio, progress) &&
          opacity == FadeOpacity(progress)
    {
      frameRequested := false;
      if startTime == 0.0 {
        startTime := currentTime;
      }
      var elapsed := currentTime - startTime;
      var progress := elapsed / animationDuration;
      if progress >= 1.0 {
        completions := completions + [animationKey];
        completedThisRun := true;
        return;
      }
      offset := DashOffset(pathLength, segmentLengthRatio, progress);
      opacity := FadeOpacity(progress);
      frameRequested := true;
    }

    /** The effect's cleanup (unmount): the pending frame is cancelled. */
    method Unmount()
      requires Valid()
      modifies this
      ensures Valid() && !frameRequested
      ensures completions == old(completions) && offset == old(offset) && opacity == old(opacity)
      ensures pathLength == old(pathLength) && startTime == old(startTime)
    {
      frameRequested := false;
    }

    function CurrentDashArray(): (dash: (real, real))
      reads this
      ensures Valid() ==> dash.0 >= 0.0 && dash.0 + dash.1 >= pathLength
    {
      DashArray(pathLength, segmentLengthRatio)
    }

    /** With a layer multiplier in [0, 1] the rendered opacity stays in [0, 0.6]. */
    function CurrentOpacity(): (o: real)
      reads this
      ensures Valid() && 0.0 <= layerOpacity <= 1.0 ==> 0.0 <= o <= 0.6
    {
      RenderedOpacity(opacity, layerOpacity)
    }
  }
}
