# Meridian flow-line visualisation, modelled in Dafny

This project models the animated background of the Meridian landing page.
The background is a field of curved "flow lines" in three depth layers. Over
it, a bounded pool of highlight animations runs: each highlight slides a
short lit segment along one line and then retires. The model also covers the
scroll rule of the front-end navigation bar.

Files and modules:

- `decimal.dfy` (`Decimal`): decimal spelling of line numbers, used in the
  `path-i` identifiers, with a proof that it is injective.
- `meridian_paths.dfy` (`MeridianPaths`): covers `components/meridian-map.tsx`.
  - Random offsets and random points.
  - Bézier path data as SVG 1.1 path commands: moveto (section 8.3.2) and
    cubic Bézier curveto (section 8.3.6).
  - The line generator and the three layers.
  - The flattened line list and the de-duplicated node list.
- `animation_pool.dfy` (`AnimationPool`): the pool of running highlights in
  the same component.
  - The interval tick and the completion handler, as pure state updaters.
  - A class `MeridianMap` holding the `animatedLines` state. Its invariant
    is at most 6 entries, with unique keys.
  - The per-layer highlight colour and opacity.
- `flow_line.dfy` (`FlowLine`): `components/animated-flow-line.tsx`.
  - Linear progress, with a fade after 70 %.
  - The completion callback is called from the frame that reaches the end.
- `frontend_flow_line.dfy` (`FrontendFlowLine`):
  `apps/frontend/components/animated-flow-line.tsx`.
  - Clamped progress with an ease-in-out cubic.
  - Fade-in and fade-out ramps with a clamp.
  - A one-shot `completed` flag that queues the completion callback on a
    timeout.
- `navigation.dfy` (`Navigation`): `handleScroll` of
  `apps/frontend/components/navigation.tsx`, as a class over `isVisible` and
  `lastScrollY`.

How the environment is modelled:

- `Math.random` is a draw stream `draw: nat -> real`. The k-th call reads
  `draw(k)`.
  - The generator reads two draws per point, x first.
  - The path builder reads four draws per segment, in the order cp1x, cp1y,
    cp2x, cp2y.
  - Properties that need draws in [0, 1) require it (`AllDraws`, `IsDraw`).
- The draw for the tick index is a parameter. So is the key
  (`Date.now() + Math.random()`). The tick requires the key to be fresh,
  because the code does not guarantee it.
- Frame timestamps and the measured path length (`getTotalLength`) are
  method parameters.
- Each pending animation frame is a `frameRequested` flag.
  - A frame callback is the method `Frame`, which may only run while a frame
    is pending.
  - Cancelling a frame clears the flag.
- All numbers are exact reals.
- In the source, an unset start time is tested for falsiness. The model
  writes it as `startTime == 0.0`, because `undefined` and `0` behave the
  same under that test.
- When the path length changes, React cleans up the running animation effect
  and runs it again. `Measure` does the same.
  - The model shows a length change as a new run that starts from
    `startTime == 0`.

Facts about the code that the model keeps:

- Points and control-point offsets are drawn at random; the index of the
  line to highlight is drawn at random too.
- The highlight fade is linear in `components/animated-flow-line.tsx`. In
  `apps/frontend/components/animated-flow-line.tsx` it is a linear ramp in and
  out, clamped, and the offset follows an ease-in-out cubic.
- Keys are `Date.now() + Math.random()`.
- The pool holds at most 6 entries, and the tick runs every 1200 ms.

The scroll rule does not promise that the bar is never hidden at 100 px or
less:

- A hidden bar stays hidden after a small upward scroll to 80 px
  (`HiddenBelowHideLine`).
- What holds instead is this: a visible bar is hidden only by a downward
  scroll past 100, and a hidden bar was last seen at 50 px or more (the
  `NavigationBar` invariant).

## Model

| member | source | states |
|---|---|---|
| `Decimal.NatToString` | components/meridian-map.tsx:60 | the `${i}` spelling: a non-empty string of decimal digits whose value, read left to right, is i, with a leading '0' only for 0 |
| `Decimal.NatToStringInjective` | components/meridian-map.tsx:60 | different line numbers get different spellings, so `path-i` ids never collide |
| `MeridianPaths.RandomOffset` | components/meridian-map.tsx:11 | `(r - 0.5) * 2 * max` lies in [-max, max) for a draw r in [0, 1) |
| `MeridianPaths.RandomPoint` | components/meridian-map.tsx:37-40 | a point from draws in [0, 1) lies in [0, maxX) x [0, maxY) |
| `MeridianPaths.Curves` | components/meridian-map.tsx:20-32 | the first n curve commands number exactly n |
| `MeridianPaths.BezierPath` | components/meridian-map.tsx:14-34 | empty exactly when there are fewer than 2 points, otherwise one command per point |
| `MeridianPaths.Vertices` | components/meridian-map.tsx:17-31 | the points a path passes through are the targets of its commands, in order |
| `MeridianPaths.CurvesAt` | components/meridian-map.tsx:20-31 | the k-th curve command is the segment from point k to point k+1, built from draws 4k..4k+3 |
| `MeridianPaths.BezierPathData` | components/meridian-map.tsx:14-34 | the loop that appends one curveto per segment produces exactly the path data `BezierPath` |
| `MeridianPaths.BezierPathShape` | components/meridian-map.tsx:15-32 | below 2 points: the empty path; otherwise a moveto to point 0, then n-1 curvetos, the k-th ending at point k+1 |
| `MeridianPaths.BezierPathVertices` | components/meridian-map.tsx:17-32 | round trip: the path visits exactly the given points, in order |
| `MeridianPaths.ControlPointsNearThirds` | components/meridian-map.tsx:18-29 | each control point is the 1/3 or 2/3 point of its segment moved by an amount in [-10, 10) per coordinate |
| `MeridianPaths.DrawnPoints` | components/meridian-map.tsx:48-57 | one line gets exactly the requested number of drawn points |
| `MeridianPaths.GenerateMeridianPaths` | components/meridian-map.tsx:43-66 | the nested loops build exactly line i from point draws first + i(s+1) .. first + i(s+1) + s, with id `path-i` and colour i mod 6 |
| `MeridianPaths.MeridianLinesShape` | components/meridian-map.tsx:43-65 | n lines; line i has id `path-i`, colour `customColors[i % 6]` and s+1 points; ids pairwise distinct |
| `MeridianPaths.MeridianLinesInCanvas` | components/meridian-map.tsx:37-57 | with draws in [0, 1), every generated point lies inside the canvas |
| `MeridianPaths.CreateLayeredPaths` | components/meridian-map.tsx:72-106 | three layers back, middle, front with 15, 20, 18 lines of 7 points each, generated in that order from one draw stream; opacity 0.08 < 0.18 < 0.35 and stroke width 0.4 < 0.5 < 0.7; palettes and blur filters |
| `MeridianPaths.StaticStroke` | components/meridian-map.tsx:231 | a static line is stroked with a colour of its layer's palette |
| `MeridianPaths.Tagged` | components/meridian-map.tsx:111 | tagging a layer's lines keeps them all and marks each with the layer name |
| `MeridianPaths.AllLinesFlat` | components/meridian-map.tsx:110-112 | the flat list holds exactly the lines of all layers, each tagged with its own layer's name |
| `MeridianPaths.LayeredFieldSize` | components/meridian-map.tsx:109-112 | the flat list of the three layers has 53 entries |
| `MeridianPaths.LinePoints` | components/meridian-map.tsx:115 | a point is collected exactly when it is a point of some line |
| `MeridianPaths.AllNodes` | components/meridian-map.tsx:115 | a point is a node exactly when some line of some layer contains it |
| `MeridianPaths.DedupFrom` | components/meridian-map.tsx:116 | keyed insertion into a Map: no duplicates; a point survives exactly when it occurs and was not inserted before |
| `MeridianPaths.UniqueNodes` | components/meridian-map.tsx:116 | no two unique nodes are equal, and they are exactly the points of the field |
| `MeridianPaths.UniqueNodesCover` | components/meridian-map.tsx:115-116 | every point of every generated line appears among the unique nodes |
| `AnimationPool.RandomIndex` | components/meridian-map.tsx:130-131 | `floor(r * n)` is a valid index for a draw in [0, 1) and n > 0 |
| `AnimationPool.TickUpdate` | components/meridian-map.tsx:133-146 | a tick only appends: existing entries kept as a prefix; one entry added exactly when the pool holds fewer than 6; never above 6 |
| `AnimationPool.TickKeepsInvariant` | components/meridian-map.tsx:120-146 | with a fresh key, a tick keeps the pool within 6 entries with unique keys, never shrinks it, and adds a line of the field under that key |
| `AnimationPool.RemoveKey` | components/meridian-map.tsx:123-125 | the filter leaves no entry with the key and never grows the pool |
| `AnimationPool.RemoveKeyMembers` | components/meridian-map.tsx:124 | an entry survives the filter exactly when it was in the pool and its key differs |
| `AnimationPool.RemoveKeyKeepsUniqueKeys` | components/meridian-map.tsx:123-125 | the filter keeps the keys of the pool distinct |
| `AnimationPool.RemoveAbsentKey` | components/meridian-map.tsx:123-125 | completing a key that is not in the pool changes nothing |
| `AnimationPool.RemoveKeyIdempotent` | components/meridian-map.tsx:123-125 | completing the same key twice equals completing it once |
| `AnimationPool.RemoveKeyAppend` | components/meridian-map.tsx:124 | the filter works entry by entry: filtering a concatenation filters each part |
| `AnimationPool.KeyOnlyAt` | components/meridian-map.tsx:123-125 | helper: with unique keys, entry i's key occurs neither before nor after it |
| `AnimationPool.RemoveKeySplit` | components/meridian-map.tsx:123-125 | helper: when entry i's key occurs nowhere else, completing it removes exactly that entry and keeps the rest in order |
| `AnimationPool.RemoveKeyRemovesOne` | components/meridian-map.tsx:123-125 | with unique keys, completing entry i's key removes that entry alone and keeps the rest in order |
| `AnimationPool.RemoveKeyCommutes` | components/meridian-map.tsx:123-125 | two completions give the same pool in either order |
| `AnimationPool.MeridianMap.constructor` | components/meridian-map.tsx:119 | the pool starts empty |
| `AnimationPool.MeridianMap.OnInterval` | components/meridian-map.tsx:127-150 | the interval callback applies the tick and keeps the invariant (6 at most, unique keys); existing entries are kept |
| `AnimationPool.MeridianMap.HandleAnimationComplete` | components/meridian-map.tsx:123-125 | the completion callback applies the filter, keeps the invariant, and is a no-op for a key already gone |
| `AnimationPool.AnimationColor` | components/meridian-map.tsx:153-160 | one of three greys; any name other than back or front gets the middle grey |
| `AnimationPool.AnimationOpacity` | components/meridian-map.tsx:163-170 | a multiplier in (0, 1); any name other than back or front gets 0.5 |
| `AnimationPool.AnimationOpacityDepthOrder` | components/meridian-map.tsx:163-170 | highlight multipliers grow from back to middle to front |
| `AnimationPool.HighlightOpacityBounded` | components/meridian-map.tsx:252 | a highlight drawn with its layer's multiplier has rendered opacity in [0, 0.48] |
| `FlowLine.DashOffset` | components/animated-flow-line.tsx:60-66 | equals the path length at progress 0 and stays in (-segment, L] for progress in [0, 1) |
| `FlowLine.DashOffsetDecreasing` | components/animated-flow-line.tsx:65 | the offset strictly decreases as progress grows |
| `FlowLine.FadeOpacity` | components/animated-flow-line.tsx:68-75 | 1 up to 70 %, strictly between 0 and 1 on (0.7, 1), and in (0, 1] on [0, 1) |
| `FlowLine.FadeOpacityDecreasing` | components/animated-flow-line.tsx:69-75 | opacity never increases with progress, and strictly decreases once fading |
| `FlowLine.DashArray` | components/animated-flow-line.tsx:85-88 | the gap is the whole path length, so one dash period covers the path |
| `FlowLine.RenderedOpacity` | components/animated-flow-line.tsx:101 | with both factors in [0, 1] the rendered opacity lies in [0, 0.6] |
| `FlowLine.AnimatedFlowLine.constructor` | components/animated-flow-line.tsx:16-28 | mounts with length 0, offset 0, opacity 1, no frame pending |
| `FlowLine.AnimatedFlowLine.Measure` | components/animated-flow-line.tsx:31-42 | offset becomes the measured length; a changed length restarts the run, and a length of 0 leaves no frame pending |
| `FlowLine.AnimatedFlowLine.Frame` | components/animated-flow-line.tsx:47-80 | at progress >= 1: the key is passed to the completion callback once and no frame is requested; otherwise offset and opacity follow the formulas and one frame is requested |
| `FlowLine.AnimatedFlowLine.Unmount` | components/animated-flow-line.tsx:82 | cleanup cancels the pending frame; length, start time, offset, opacity and the completions made so far stay as they were |
| `FlowLine.AnimatedFlowLine.CurrentDashArray` | components/animated-flow-line.tsx:87-88 | the rendered dash period covers the path |
| `FlowLine.AnimatedFlowLine.CurrentOpacity` | components/animated-flow-line.tsx:101 | with a layer multiplier in [0, 1] the rendered opacity lies in [0, 0.6] |
| `FrontendFlowLine.Progress` | apps/frontend/components/animated-flow-line.tsx:52 | progress is at most 1, not negative for elapsed >= 0, and is 1 exactly when the duration has passed |
| `FrontendFlowLine.CubeMonotone` | apps/frontend/components/animated-flow-line.tsx:64 | helper: cubing is monotone, the fact behind the easing's monotonicity |
| `FrontendFlowLine.EaseAsCubes` | apps/frontend/components/animated-flow-line.tsx:64 | helper: the easing's branches are 4t^3 and 4(t-1)^3 + 1 |
| `FrontendFlowLine.EaseMonotone` | apps/frontend/components/animated-flow-line.tsx:64 | the easing is monotone non-decreasing on all reals |
| `FrontendFlowLine.EaseBounds` | apps/frontend/components/animated-flow-line.tsx:64 | ease(0) = 0, ease(1/2) = 1/2, ease(1) = 1, and [0, 1] maps into [0, 1] |
| `FrontendFlowLine.EaseSymmetric` | apps/frontend/components/animated-flow-line.tsx:64 | ease(1 - t) = 1 - ease(t) |
| `FrontendFlowLine.DashOffsetRange` | apps/frontend/components/animated-flow-line.tsx:61-71 | the offset is L at progress 0 and -segment at 1, stays in [-segment, L], and never increases |
| `FrontendFlowLine.Clamp` | apps/frontend/components/animated-flow-line.tsx:81 | the clamp lands in [0, 1] and leaves values in [0, 1] alone |
| `FrontendFlowLine.RawOpacityInRange` | apps/frontend/components/animated-flow-line.tsx:74-81 | on [0, 1] the raw opacity is already in [0, 1]; it is 0 at both ends and 1 on [0.1, 0.9] |
| `FrontendFlowLine.RawOpacitySymmetric` | apps/frontend/components/animated-flow-line.tsx:74-79 | the fade out mirrors the fade in |
| `FrontendFlowLine.RenderedOpacity` | apps/frontend/components/animated-flow-line.tsx:112 | with both factors in [0, 1] the rendered opacity lies in [0, 0.8] |
| `FrontendFlowLine.AnimatedFlowLine.constructor` | apps/frontend/components/animated-flow-line.tsx:16-28 | mounts with length 0, offset 0, opacity 1, no frame pending, nothing queued |
| `FrontendFlowLine.AnimatedFlowLine.Measure` | apps/frontend/components/animated-flow-line.tsx:31-46 | offset becomes the measured length; a changed length cleans up the run and starts a new one with `completed` reset; length 0 leaves no frame pending; an unchanged length leaves the pending frame, `completed` and the start time as they were; queued completions never change |
| `FrontendFlowLine.AnimatedFlowLine.Frame` | apps/frontend/components/animated-flow-line.tsx:48-86 | offset and clamped opacity follow the formulas; a frame is requested exactly while progress < 1; the key is queued exactly once per run, when progress reaches 1 |
| `FrontendFlowLine.AnimatedFlowLine.Cleanup` | apps/frontend/components/animated-flow-line.tsx:90-93 | cleanup cancels the frame and sets `completed`, so this run queues no more completions; timeouts already queued stay |
| `FrontendFlowLine.AnimatedFlowLine.CurrentDashArray` | apps/frontend/components/animated-flow-line.tsx:98-99 | the gap is the path length and the dash period covers the path |
| `FrontendFlowLine.AnimatedFlowLine.CurrentOpacity` | apps/frontend/components/animated-flow-line.tsx:112 | with a layer multiplier in [0, 1] the rendered opacity lies in [0, 0.8] |
| `Navigation.NextVisibleCharacterised` | apps/frontend/components/navigation.tsx:19-33 | near the top the bar is shown; a downward scroll past 100 hides it; only that hides a visible bar; only the top zone or an upward scroll of more than 50 shows a hidden bar; otherwise it stays |
| `Navigation.NextVisibleStable` | apps/frontend/components/navigation.tsx:19-35 | a repeated event at the same position changes nothing |
| `Navigation.HiddenBelowHideLine` | apps/frontend/components/navigation.tsx:23-33 | a hidden bar stays hidden on a small upward scroll from 120 to 80 |
| `Navigation.NavigationBar.constructor` | apps/frontend/components/navigation.tsx:15-16 | starts visible at scroll position 0 |
| `Navigation.NavigationBar.HandleScroll` | apps/frontend/components/navigation.tsx:19-36 | the visibility follows the three-branch rule, `lastScrollY` becomes the current position, and a hidden bar was last seen at 50 or more |

## Left out

- SVG rendering is not modelled: filters, grid lines, the fuzz and muting
  overlays, and the conversion of numbers to text in the path string.
  Path data is a sequence of command records.
- `getTotalLength` is not modelled. The measured length is a parameter.
- The per-render random node depth, size and fill (components/meridian-map.tsx:257-271)
  are not modelled. They are presentation only.
- The per-render random duration and segment ratio (components/meridian-map.tsx:248-249)
  are constructor parameters. The model requires a positive duration and a
  non-negative ratio.
- `setInterval`, `requestAnimationFrame` and `setTimeout` are not modelled as
  real time.
  - Each callback is an explicit method call.
  - A queued completion timeout is a list entry (`queuedCompletions`). It is
    not cancelled by cleanup.
  - In the map of `components/`, a completion delivered for a key already
    gone leaves the pool unchanged (`RemoveAbsentKey`,
    `RemoveKeyIdempotent`). The string-keyed variant in `apps/frontend/`,
    which queues its completions on timeouts, has no parent component in
    this model, so nothing is stated about where its late completions land.
- Stale closures are not modelled. In the source, `handleScroll` reads the
  `lastScrollY` of the render that registered it. The model lets each event
  see the latest state, which is what happens when every event is followed
  by a re-render.
- `Date.now() + Math.random()` is not modelled as a key source. Nothing in
  the code keeps these keys unique, so callers pass a fresh key.
- IEEE-754 rounding is not modelled. All arithmetic is exact.
- Re-renders of the map are not modelled. Every render of the map draws
  `animationDuration`, `segmentLengthRatio` and the path data of every
  running highlight afresh (components/meridian-map.tsx:246-249). The
  duration and the ratio are dependencies of the animation effect, so every
  re-render restarts every running highlight. A re-render follows every tick
  below capacity and every completion, since the filter returns a new array
  even when no key matches. The model keeps these props fixed for the life of
  a highlight and restarts it only when `Measure` sees a new length.
- The default props (`animationDuration = 6000`, `segmentLengthRatio = 0.15`,
  `layerOpacity = 1`, components/animated-flow-line.tsx:19-23, the same in the
  `apps/frontend/` variant) are not modelled. The constructors take all three
  as parameters, and the map always passes all three.
- The rest of the repository is not part of this model: the REST client,
  the configuration and shared-type packages, and the static page sections.
