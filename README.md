# ThunderLoadingView in Dafny

ThunderLoadingView is an Android loading indicator. It draws a rounded square
backdrop holding a lightning-bolt outline. A band of a second colour is revealed
over the bolt from the top down, then withdrawn, and the cycle repeats with a pause
of 700 ms between cycles.

This project models the logic under the platform calls:

- the scan animation (`AnimRunnable.run`). Each tick grows the band's bottom edge
  by a step (`mGap`) until it reaches the bolt height (`mDefaultHeight`). The edge
  is then clamped and the band's top edge advances. When the top reaches the height,
  the band resets and the next tick is delayed.
- the size tier (`Size`, `parseAttributes`, `initConfig`, `setSize`), which sets
  every dimension and the step;
- measurement (`getMeasuredSize`, `onMeasure`);
- the size check and backdrop bounds of `onSizeChanged`;
- the six-corner bolt outline of `initPath`;
- the clip band `onDraw` paints the second colour through.

Modules:

- `JavaCasts` (java_casts.dfy): Java's float-to-int cast, which truncates toward zero.
- `Wrappers` (wrappers.dfy): Option and Result.
- `SizeConfig` (size_config.dfy): tiers, scale factors, steps, attribute codes and
  the derived dimensions, as functions.
- `ScanAnimator` (scan_animator.dfy): one tick as a pure transition `Step` on the
  window (`mScanTop`, `mScanBottom`, `flag`), `Run` for n ticks, and the
  lemmas about phases, cycles and the order the window keeps.
- `Layout` (layout.dfy): `getMeasuredSize` over a decoded mode, the desired size,
  the bolt outline, the backdrop bounds with the too-small error, and the clip band.
- `ThunderView` (thunder_view.dfy): the class `ThunderLoadingView`. Its fields are
  the source's mutable fields. Each method updates them as the source does and is
  specified by the functions above.

Heights and widths are Dafny reals. The display density is a positive parameter
(`dp2px(x)` is `x * density`). `(int)` casts are `Trunc`. A tick's calls to the host
(`postInvalidate`, `post`, `postDelayed(…, 700)`) are returned as a redraw flag and
a `Schedule` (`Immediate` or `Delayed(700)`).

Behaviour of the code worth knowing:

- When the layout does not set `thunder_size`, `getInt(…, 0)` yields 0, which selects
  SMALL. Only values other than 0, 1 and 2 keep the initial MEDIUM.
- `onSizeChanged` rebuilds the path before it checks the size. A rejected box
  therefore still leaves a new path behind; only the bounds stay as they were.
- The size check compares the whole view, padding included, with the truncated
  backdrop minimum.
- `setSize` recomputes the dimensions and the step; the path stays as the last
  `onSizeChanged` built it.
- The ordering 0 <= top <= bottom <= height holds only while the step and height stay
  fixed. Raising the height during the shrinking phase lets top pass bottom
  (`ResizeMidShrinkUnorders`). The machine still returns to the initial window
  within a bounded number of ticks (`Recovers`).

## Model

| member | source | states |
|---|---|---|
| JavaCasts.Trunc | library/src/main/java/com/rtfsc/library/ThunderLoadingView.java:226 | `(int)` of a float rounds toward zero: for non-negative x the result is the largest integer not above x; for negative x, the smallest not below. |
| JavaCasts.TruncIsGreatestBelow | library/src/main/java/com/rtfsc/library/ThunderLoadingView.java:226 | For non-negative x, an integer n is at most x exactly when n is at most the truncation of x. |
| SizeConfig.Factor | library/src/main/java/com/rtfsc/library/ThunderLoadingView.java:52-65 | Every tier's scale factor lies in (0, 1]. |
| SizeConfig.SizeOfCode | library/src/main/java/com/rtfsc/library/ThunderLoadingView.java:81-90 | Exactly the attribute values 0, 1 and 2 select a tier, and the tier selected has that code, as `Code` gives it (0 Small, 1 Medium, 2 Large). |
| SizeConfig.ParsedSize | library/src/main/java/com/rtfsc/library/ThunderLoadingView.java:78-92 | A missing attribute selects Small. A value in 0..2 selects the tier with that code. Any other value keeps the current tier. |
| SizeConfig.ParsedSizeOfCode | library/src/main/java/com/rtfsc/library/ThunderLoadingView.java:81-90 | Parsing a tier's own code yields that tier, whatever the field held before. |
| SizeConfig.Config | library/src/main/java/com/rtfsc/library/ThunderLoadingView.java:105-121 | The backdrop is square with side 70·density·factor. The bolt is 40·density·factor by 60·density·factor, positive and no larger than the backdrop on either axis. The step is the `GapOf` table: 7 for Large, 5 for Medium, 3 for Small. |
| SizeConfig.ConfigMonotone | library/src/main/java/com/rtfsc/library/ThunderLoadingView.java:105-121 | A tier with a larger factor is at least as large in every dimension and has at least as large a step. |
| ScanAnimator.Step | library/src/main/java/com/rtfsc/library/ThunderLoadingView.java:220-244 | Every tick requests a redraw. The next tick is delayed exactly when the window was shrinking and top + step reached the height; the delay is then 700 and the window is back at (0, 0, growing). A growing tick leaves top alone. A shrinking tick that does not reset leaves bottom and the phase alone. |
| ScanAnimator.GrowingTick | library/src/main/java/com/rtfsc/library/ThunderLoadingView.java:223-230 | Growing: bottom gains the step and top is unchanged. If bottom + step reaches the height, bottom becomes `(int)` height and the phase switches to shrinking before the redraw. The next tick is immediate. |
| ScanAnimator.ShrinkingTick | library/src/main/java/com/rtfsc/library/ThunderLoadingView.java:231-242 | Shrinking: if top + step reaches the height, the window resets to (0, 0, growing) and the next tick is delayed 700. Otherwise top gains the step, bottom and the phase are unchanged, and the next tick is immediate. |
| ScanAnimator.Run | library/src/main/java/com/rtfsc/library/ThunderLoadingView.java:220-244 | n ticks yield exactly n schedule requests. |
| ScanAnimator.RunAppend | library/src/main/java/com/rtfsc/library/ThunderLoadingView.java:220-244 | m ticks followed by n ticks equal m + n ticks: same final window, and the schedules concatenate. |
| ScanAnimator.TicksToReach | library/src/main/java/com/rtfsc/library/ThunderLoadingView.java:224-233 | The number of ticks an edge at x, advanced by a positive step, needs to reach the height is at least 1 and reaches it; when above 1, one tick fewer falls short. When x is below the height this is the ceiling of (height − x) / step; an edge already at or past the height takes one tick. |
| ScanAnimator.TicksToReachUnique | library/src/main/java/com/rtfsc/library/ThunderLoadingView.java:224-233 | Any n with that characterisation equals the tick count. |
| ScanAnimator.GrowingPhase | library/src/main/java/com/rtfsc/library/ThunderLoadingView.java:223-230 | From any growing window, the ticks until bottom reaches the height are all immediate. They end shrinking, with bottom at `(int)` height and top unchanged. |
| ScanAnimator.ShrinkingPhase | library/src/main/java/com/rtfsc/library/ThunderLoadingView.java:231-242 | From any shrinking window, the ticks until top reaches the height end at (0, 0, growing). All but the last are immediate, and the last is Delayed(700). |
| ScanAnimator.CycleLength | library/src/main/java/com/rtfsc/library/ThunderLoadingView.java:220-244 | A cycle has an even number of ticks, at least two. |
| ScanAnimator.FullCycle | library/src/main/java/com/rtfsc/library/ThunderLoadingView.java:220-244 | From the initial window (0, 0, growing), a full cycle returns to it. Every tick but the last reschedules immediately, and the last is the cycle's only delayed reschedule (700). |
| ScanAnimator.TicksToReset | library/src/main/java/com/rtfsc/library/ThunderLoadingView.java:220-244 | The ticks until the next reset number at least one; `Recovers` shows that after them the window is (0, 0, growing). |
| ScanAnimator.Recovers | library/src/main/java/com/rtfsc/library/ThunderLoadingView.java:215-244 | From any window, even one put out of order by `setSize` in mid-cycle, the machine reaches (0, 0, growing) within a bounded number of ticks, ending with the 700 delay. |
| ScanAnimator.StepKeepsOrder | library/src/main/java/com/rtfsc/library/ThunderLoadingView.java:220-244 | With a fixed non-negative step and height: one tick keeps 0 <= top <= bottom <= `(int)` height, top = 0 while growing, and bottom at the clamp while shrinking. |
| ScanAnimator.RunKeepsOrder | library/src/main/java/com/rtfsc/library/ThunderLoadingView.java:220-244 | Any number of ticks keeps that order. |
| ScanAnimator.ReachableBounded | library/src/main/java/com/rtfsc/library/ThunderLoadingView.java:45 | After every tick from the initial fields (`mScanTop = mScanBottom = 0`, `flag = false`), 0 <= top <= bottom <= height. |
| ScanAnimator.ResizeMidShrinkUnorders | library/src/main/java/com/rtfsc/library/ThunderLoadingView.java:215-218 | Going from Small to Large (step 3, height 30 to step 7, height 60) at an ordered window (27, 30, shrinking) produces (34, 30): top passes bottom. |
| Layout.MeasuredSize | library/src/main/java/com/rtfsc/library/ThunderLoadingView.java:165-185 | EXACTLY reports the parent's size whatever is desired. AT_MOST reports a value no larger than either the desired or the parent's size, and equal to one of them. Any other mode reports the desired size. |
| Layout.AtMostIsMin | library/src/main/java/com/rtfsc/library/ThunderLoadingView.java:176-180 | Under AT_MOST the report is the desired size when it fits and the bound otherwise. |
| Layout.DesiredSize | library/src/main/java/com/rtfsc/library/ThunderLoadingView.java:138-139 | The desired size is the backdrop side plus the padding on both ends, truncated: within 1 below the exact sum, and at least the padding. |
| Layout.BoltPath | library/src/main/java/com/rtfsc/library/ThunderLoadingView.java:150-159 | The outline has six corners. All lie in [padL, padL + 40·r·d] × [padT, padT + 60·r·d], and each of the four extremes is reached by a corner. |
| Layout.BackdropBounds | library/src/main/java/com/rtfsc/library/ThunderLoadingView.java:127-130 | The box is rejected with TooSmall exactly when its width or height is below the truncated minimum. Otherwise the backdrop has its top-left corner at the padding origin and the minimum's width and height. |
| Layout.ClipBand | library/src/main/java/com/rtfsc/library/ThunderLoadingView.java:205 | The clip band has its top-left corner at (padL, top + padT), is as wide as the bolt and is as tall as bottom − top, so it covers the window's rows from the padding origin. |
| Layout.ClipBandWithinBolt | library/src/main/java/com/rtfsc/library/ThunderLoadingView.java:205 | A window inside the bolt's height gives a band spanning the outline's width and lying within its vertical extent. |
| ThunderView.ThunderLoadingView.constructor | library/src/main/java/com/rtfsc/library/ThunderLoadingView.java:67-102 | A new view has tier MEDIUM, or the parsed attribute when inflated from a layout. Its dimensions are those of its tier, the window is (0, 0, growing), and there is no path or bounds yet. |
| ThunderView.ThunderLoadingView.ParseAttributes | library/src/main/java/com/rtfsc/library/ThunderLoadingView.java:78-92 | The field becomes the tier parsed from the attribute, with the old value kept for unknown codes. |
| ThunderView.ThunderLoadingView.InitConfig | library/src/main/java/com/rtfsc/library/ThunderLoadingView.java:105-121 | Afterwards the dimensions and step are those of the current tier. |
| ThunderView.ThunderLoadingView.SetSize | library/src/main/java/com/rtfsc/library/ThunderLoadingView.java:215-218 | The tier is replaced and the dimensions re-derived. The window, the built path and the bounds are unchanged. |
| ThunderView.ThunderLoadingView.Tick | library/src/main/java/com/rtfsc/library/ThunderLoadingView.java:220-244 | The new fields, redraw and schedule are those of one `Step` with the current step and height. For a configured view, a tick keeps the window's order. |
| ThunderView.ThunderLoadingView.OnMeasure | library/src/main/java/com/rtfsc/library/ThunderLoadingView.java:134-141 | Each measured side is `getMeasuredSize` applied to the backdrop side plus that axis's padding. |
| ThunderView.ThunderLoadingView.InitPath | library/src/main/java/com/rtfsc/library/ThunderLoadingView.java:150-159 | The path built by moveTo/lineTo is the six-corner outline for the ratio, density and padding. |
| ThunderView.ThunderLoadingView.OnSizeChanged | library/src/main/java/com/rtfsc/library/ThunderLoadingView.java:124-131 | The path is always rebuilt for the current tier. The result is TooSmall exactly when the box is below the truncated minimum, and then the bounds are unchanged. Otherwise the bounds become the backdrop rectangle at the padding origin. |
| ThunderView.SetSizeTwice | library/src/main/java/com/rtfsc/library/ThunderLoadingView.java:215-218 | Setting the same tier twice leaves the view as one call does: that tier, its dimensions, and the window, path and bounds unchanged. |
| ThunderView.PhaseTicksAtUnitDensity | library/src/main/java/com/rtfsc/library/ThunderLoadingView.java:105-121 | At density 1 a phase lasts 10 ticks for Small (step 3, height 30), 9 for Medium (5, 45) and 9 for Large (7, 60). |
| ThunderView.ReachableBandWithinBolt | library/src/main/java/com/rtfsc/library/ThunderLoadingView.java:205 | For each tier, after any number of ticks from the start, the clip band `onDraw` uses lies inside the bolt outline's extent. |

## Left out

- Scheduling: the handler queue behind `post`, `postDelayed` and `postInvalidate` is not modelled; a tick returns what it asks for. The first `post` of `startAnim` is not modelled. The `removeCallbacks` in `onDetachedFromWindow` withdraws the pending tick; detachment and cancellation are not modelled.
- Drawing: `onDraw`'s paints, colours, rounded rectangle and the canvas translations that centre the backdrop and the bolt are graphics calls with no modelled result. Only the clip band's arithmetic is kept (`ClipBand`).
- Display density: `dp2px` (`TypedValue.applyDimension`) is replaced by a positive `density` parameter.
- Floating point: widths and heights are exact reals. Float rounding, NaN and the saturation of `(int)` at the int bounds are not modelled.
- Java int overflow of `mScanTop`/`mScanBottom` is not modelled. A stored edge is at most the largest bolt height, 60·density, and the transient value `+=` stores before the clamp at most 60·density + 7, whatever `setSize` does.
- Platform decoding: `MeasureSpec` bit packing and `TypedArray` are not modelled. The mode and size arrive decoded, and the attribute arrives as an optional int.
- Host state: padding comes in as a parameter. `getWidth()`/`getHeight()` in `onSizeChanged` are taken to be its `w`/`h`. The `Paint` set-up of `init` is left out.
- The two Java constructors are one constructor with an `Origin` argument.
