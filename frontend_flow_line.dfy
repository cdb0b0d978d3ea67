/** One highlight travelling along a flow line, in the front-end app's form:
    progress clamped to 1, an ease-in-out cubic on the offset, a fade in over
    the first 10 % and out over the last 10 %, and a one-shot `completed` flag
    that queues the completion callback (behind a 50 ms timeout) at most once
    per run of the animation effect. Times are in milliseconds and lengths in
    canvas units, both as exact reals. */
module FrontendFlowLine {

  /** `Math.min(elapsed / animationDuration, 1)`. */
  function Progress(elapsed: real, animationDuration: real): (p: real)
    requires animationDuration > 0.0
    ensures p <= 1.0
    ensures elapsed >= 0.0 ==> 0.0 <= p
    ensures p == 1.0 <==> elapsed >= animationDuration
  {
    var raw := elapsed / animationDuration;
    assert raw >= 1.0 <==> elapsed >= animationDuration;
    if raw < 1.0 then raw else 1.0
  }

  /** `easeInOutCubic`. */
  function Ease(t: real): real
  {
    if t < 0.5 then 4.0 * t * t * t else (t - 1.0) * (2.0 * t - 2.0) * (2.0 * t - 2.0) + 1.0
  }

  lemma CubeMonotone(a: real, b: real)
    requires a <= b
    ensures a * a * a <= b * b * b
  {
    var d := b - a;
    assert b * b * b - a * a * a == d * (a * a + a * b + b * b);
    assert a * a + a * b + b * b == (a + b / 2.0) * (a + b / 2.0) + 3.0 * (b * b) / 4.0;
    var m := a + b / 2.0;
    if m < 0.0 {
      assert m * m == (-m) * (-m);
    }
    assert 0.0 <= m * m;
    assert 0.0 <= b * b;
  }

  /** The two branches of the easing are 4t^3 and 4(t-1)^3 + 1. */
  lemma EaseAsCubes(t: real)
    ensures t < 0.5 ==> Ease(t) == 4.0 * (t * t * t)
    ensures t >= 0.5 ==> Ease(t) == 4.0 * ((t - 1.0) * (t - 1.0) * (t - 1.0)) + 1.0
  {
  }

  /** The easing never moves backwards. */
  lemma EaseMonotone(s: real, t: real)
    requires s <= t
    ensures Ease(s) <= Ease(t)
  {
    EaseAsCubes(s);
    EaseAsCubes(t);
    if t < 0.5 {
      CubeMonotone(s, t);
    } else if s >= 0.5 {
      CubeMonotone(s - 1.0, t - 1.0);
    } else {
      CubeMonotone(s, 0.5);
      CubeMonotone(-0.5, t - 1.0);
    }
  }

  /** The easing fixes 0, 1/2 and 1, and so maps [0, 1] onto [0, 1]. */
  lemma EaseBounds(t: real)
    requires 0.0 <= t <= 1.0
    ensures Ease(0.0) == 0.0 && Ease(0.5) == 0.5 && Ease(1.0) == 1.0
    ensures 0.0 <= Ease(t) <= 1.0
  {
    EaseMonotone(0.0, t);
    EaseMonotone(t, 1.0);
  }

  /** Ease-in mirrors ease-out: the curve is point-symmetric about (1/2, 1/2). */
  lemma EaseSymmetric(t: real)
    ensures Ease(1.0 - t) == 1.0 - Ease(t)
  {
    EaseAsCubes(t);
    EaseAsCubes(1.0 - t);
    assert (t - 1.0) * (t - 1.0) * (t - 1.0) == -((1.0 - t) * (1.0 - t) * (1.0 - t));
    assert (1.0 - t - 1.0) * (1.0 - t - 1.0) * (1.0 - t - 1.0) == -(t * t * t);
  }

  function SegmentLength(pathLength: real, segmentLengthRatio: real): real
  {
    pathLength * segmentLengthRatio
  }

  /** The dash offset at `progress`: the segment travels `pathLength +
      segmentLength` in all, along the eased progress. */
  function DashOffset(pathLength: real, segmentLengthRatio: real, progress: real): real
  {
    pathLength - (pathLength + SegmentLength(pathLength, segmentLengthRatio)) * Ease(progress)
  }

  /** Scaling by a non-negative factor keeps order. */
  lemma ScaleMonotone(c: real, x: real, y: real)
    requires c >= 0.0 && x <= y
    ensures c * x <= c * y
  {
    assert c * y - c * x == c * (y - x);
  }

  /** The offset starts at the path length, ends one segment before the path
      start, stays in between, and never moves backwards. */
  lemma DashOffsetRange(pathLength: real, segmentLengthRatio: real, p: real, q: real)
    requires pathLength >= 0.0 && segmentLengthRatio >= 0.0
    requires 0.0 <= p <= q <= 1.0
    ensures DashOffset(pathLength, segmentLengthRatio, 0.0) == pathLength
    ensures DashOffset(pathLength, segmentLengthRatio, 1.0) == -SegmentLength(pathLength, segmentLengthRatio)
    ensures -SegmentLength(pathLength, segmentLengthRatio) <= DashOffset(pathLength, segmentLengthRatio, p) <= pathLength
    ensures DashOffset(pathLength, segmentLengthRatio, q) <= DashOffset(pathLength, segmentLengthRatio, p)
  {
    var travel := pathLength + SegmentLength(pathLength, segmentLengthRatio);
    assert travel >= 0.0;
    EaseBounds(p);
    EaseMonotone(p, q);
    var e, f := Ease(p), Ease(q);
    assert 0.0 <= travel * e <= travel * 1.0;
    ScaleMonotone(travel, e, f);
    assert DashOffset(pathLength, segmentLengthRatio, q) == pathLength - travel * f;
    assert DashOffset(pathLength, segmentLengthRatio, p) == pathLength - travel * e;
  }

  /** Opacity before clamping: a ramp up over the first tenth, a ramp down
      over the last tenth, 1 in between. */
  function RawOpacity(progress: real): real
  {
    if progress < 0.1 then progress / 0.1
    else if progress > 0.9 then (1.0 - progress) / 0.1
    else 1.0
  }

  /** `Math.max(0, Math.min(1, x))`. */
  function Clamp(x: real): (c: real)
    ensures 0.0 <= c <= 1.0
    ensures 0.0 <= x <= 1.0 ==> c == x
  {
    var upper := if x < 1.0 then x else 1.0;
    if 0.0 < upper then upper else 0.0
  }

  /** On [0, 1] the raw opacity already lies in [0, 1], so the clamp changes
      nothing there; it is 0 at both ends and 1 on [0.1, 0.9]. */
  lemma RawOpacityInRange(progress: real)
    requires 0.0 <= progress <= 1.0
    ensures 0.0 <= RawOpacity(progress) <= 1.0
    ensures Clamp(RawOpacity(progress)) == RawOpacity(progress)
    ensures RawOpacity(0.0) == 0.0 && RawOpacity(1.0) == 0.0
    ensures 0.1 <= progress <= 0.9 ==> RawOpacity(progress) == 1.0
  {
  }

  /** The fade out mirrors the fade in. */
  lemma RawOpacitySymmetric(progress: real)
    ensures RawOpacity(1.0 - progress) == RawOpacity(progress)
  {
  }

  /** Opacity handed to the renderer: the animation opacity at 80 %, times the
      layer multiplier. */
  function RenderedOpacity(opacity: real, layerOpacity: real): (o: real)
    ensures 0.0 <= opacity <= 1.0 && 0.0 <= layerOpacity <= 1.0 ==> 0.0 <= o <= 0.8
  {
    var dimmed := opacity * 0.8;
    assert 0.0 <= opacity <= 1.0 && 0.0 <= layerOpacity <= 1.0 ==>
      0.0 <= dimmed <= 0.8 && dimmed * layerOpacity <= dimmed * 1.0;
    dimmed * layerOpacity
  }

  /** The component: its React state, the locals of the current run of the
      animation effect (`startTime`, the pending frame, `completed`), and the
      completion callbacks queued on timeouts, in order. */
  class AnimatedFlowLine {
    const animationDuration: real
    const segmentLengthRatio: real
    const animationKey: string
    const layerOpacity: real

    var pathLength: real
    var offset: real
    var opacity: real
    /** 0 stands for "unset": the source tests the start time for falsiness. */
    var startTime: real
    var completed: bool
    var frameRequested: bool
    var queuedCompletions: seq<string>
    /** Completions queued by the current run. */
    ghost var queuedThisRun: nat

    ghost predicate Valid()
      reads this
    {
      animationDuration > 0.0 && segmentLengthRatio >= 0.0 &&
      pathLength >= 0.0 && startTime >= 0.0 &&
      -SegmentLength(pathLength, segmentLengthRatio) <= offset <= pathLength &&
      0.0 <= opacity <= 1.0 &&
      queuedThisRun <= 1 && (queuedThisRun == 1 ==> completed) &&
      (frameRequested ==> pathLength > 0.0 && !completed)
    }

    /** Mounting: nothing measured yet, so the animation effect returns at once. */
    constructor (animationDuration: real, segmentLengthRatio: real, animationKey: string, layerOpacity: real)
      requires animationDuration > 0.0 && segmentLengthRatio >= 0.0
      ensures Valid()
      ensures this.animationDuration == animationDuration && this.segmentLengthRatio == segmentLengthRatio
      ensures this.animationKey == animationKey && this.layerOpacity == layerOpacity
      ensures pathLength == 0.0 && offset == 0.0 && opacity == 1.0
      ensures !frameRequested && queuedCompletions == []
    {
      this.animationDuration := animationDuration;
      this.segmentLengthRatio := segmentLengthRatio;
      this.animationKey := animationKey;
      this.layerOpacity := layerOpacity;
      pathLength, offset, opacity := 0.0, 0.0, 1.0;
      startTime := 0.0;
      completed := false;
      frameRequested := false;
      queuedCompletions := [];
      queuedThisRun := 0;
    }

    /** The measuring effect with the measured `length`, followed by what
        React does when `pathLength` changes: the cleanup of the current run
        (cancel the frame, set `completed`) and a new run, which requests a
        first frame with a fresh `completed` flag unless the length is 0. */
    method Measure(length: real)
      requires Valid() && length >= 0.0
      modifies this
      ensures Valid()
      ensures pathLength == length && offset == length
      ensures opacity == old(opacity) && queuedCompletions == old(queuedCompletions)
      ensures length != old(pathLength) ==> frameRequested == (length > 0.0)
      ensures length != old(pathLength) && length > 0.0 ==> startTime == 0.0 && !completed
      ensures length == old(pathLength) ==>
        frameRequested == old(frameRequested) && completed == old(completed) && startTime == old(startTime)
      ensures length == 0.0 ==> !frameRequested
    {
      var changed := length != pathLength;
      if changed {
        Cleanup();
      }
      pathLength := length;
      offset := length;
      if changed && pathLength != 0.0 {
        startTime := 0.0;
        completed := false;
        queuedThisRun := 0;
        frameRequested := true;
      }
    }

    /** One `animate` callback at `currentTime`, for the pending frame. */
    method Frame(currentTime: real)
      requires Valid() && frameRequested && 0.0 <= currentTime && startTime <= currentTime
      modifies this
      ensures Valid() && pathLength == old(pathLength)
      ensures startTime == if old(startTime) == 0.0 then currentTime else old(startTime)
      ensures var progress := Progress(currentTime - startTime, animationDuration);
        offset == DashOffset(pathLength, segmentLengthRatio, progress) &&
        opacity == Clamp(RawOpacity(progress)) &&
        frameRequested == (progress < 1.0) &&
        completed == (progress >= 1.0) &&
        queuedCompletions == old(queuedCompletions) + (if progress >= 1.0 then [animationKey] else [])
    {
      frameRequested := false;
      if startTime == 0.0 {
        startTime := currentTime;
      }
      var elapsed := currentTime - startTime;
      var progress := Progress(elapsed, animationDuration);
      if progress >= 1.0 && !completed {
        completed := true;
        queuedCompletions := queuedCompletions + [animationKey];
        queuedThisRun := queuedThisRun + 1;
      }
      DashOffsetRange(pathLength, segmentLengthRatio, progress, progress);
      offset := DashOffset(pathLength, segmentLengthRatio, progress);
      opacity := Clamp(RawOpacity(progress));
      if progress < 1.0 {
        frameRequested := true;
      }
    }

    /** The effect's cleanup: cancel the pending frame and set `completed`,
        so this run can queue no completion any more. The timeouts already
        queued are not cancelled. */
    method Cleanup()
      requires Valid()
      modifies this
      ensures Valid() && !frameRequested && completed
      ensures queuedCompletions == old(queuedCompletions) && queuedThisRun == old(queuedThisRun)
      ensures pathLength == old(pathLength) && offset == old(offset) && opacity == old(opacity)
      ensures startTime == old(startTime)
    {
      frameRequested := false;
      completed := true;
    }

    function CurrentDashArray(): (dash: (real, real))
      reads this
      ensures dash.1 == pathLength
      ensures Valid() ==> 0.0 <= dash.0 && dash.0 + dash.1 >= pathLength
    {
      (SegmentLength(pathLength, segmentLengthRatio), pathLength)
    }

    /** With a layer multiplier in [0, 1] the rendered opacity stays in [0, 0.8]. */
    function CurrentOpacity(): (o: real)
      reads this
      ensures Valid() && 0.0 <= layerOpacity <= 1.0 ==> 0.0 <= o <= 0.8
    {
      RenderedOpacity(opacity, layerOpacity)
    }
  }
}
