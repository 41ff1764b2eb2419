# PasswordView layout model

A Dafny model of the layout core of the Android `PasswordView` widget
(`lib-widget/src/main/java/com/hyh/widget/PasswordView.java`). The widget is
an `EditText` that draws N password cells in a row ("a chain"). The model
covers these parts:

- **Chain helper**: the four closed forms that give the width a chain needs
  when the host leaves the width open (`compute*ChainWidth`), and
  `measureBoxChainExactly`, which turns a fixed width into box space, chain
  margin and the merged-borders flag.
- **The three measurers** (Fill, Bound, Free). Each combines the host's
  MeasureSpec mode with the chain helper to fill a `MeasureResult`. The width
  pass runs first; the height pass then reads the box width it left behind.
- **`MeasureResult.clear` and `copy`**, and `onMeasure`. onMeasure clears
  the working record, measures into it, forms the two content sums from the
  previously measured record, and copies the working record over it.
- **The `drawBox` loops** (merged rect, stroked rect/oval, underline). These
  overwrite or append entries of the widget's cell list in place. Also
  `drawMergedRectBoxBackground` and `getBoxBackgroundRadius`, which write the
  eight corner radii of a merged cell.
- **`drawCursor`'s gate and geometry**, the blink toggle
  `DrawCursorToggleTask.run`, and the listener calls of `afterTextChanged`.

Java `float`s are idealised as `real`. The host's pixel sizes and the
paddings stay `int`.

The model is organised as follows:

- Each measurer's width and height pass is a function on a `Measurement`
  value (a snapshot of the record's fields).
- The `MeasureResult` record is a class. Its methods update the fields one by
  one, as the source does. Each method's postcondition ties the new state to
  the function applied to the old state.
- `PasswordView` is a class holding the two records, the cell list (a
  `seq<RectF>` field that the loops reassign), the radii array
  (`array<real>`, length 8) and the blink flag.

Source quirks the model keeps on purpose (each is exhibited by a lemma):

- `clear` never resets `measureHeight`: it resets `measureBoxHeight` twice.
  `StaleHeightIsOverwritten` proves that the stale height never reaches a
  result.
- onMeasure forms the content sums from the *previous* measured record.
  - The first pass over a record that holds no chain reports the content
    of an empty chain (`FirstPassContentIsStale`).
  - A second pass with the same constraints settles (`OnMeasureSettles`).
- Bound's AT_MOST pass with a Free chain decides merging from the record's
  old box space (0 after `clear`). It then writes the configured space, so it
  can report merged borders together with a positive space
  (`BoundAtMostMergesDespiteSpace`).
- Free's AT_MOST pass with a Free chain ignores the host width and can
  overflow it (`FreeAtMostOverflows`).
- Only Fill falls back to the suggested minimum height when the height is
  open and the desired box height is 0 (`UnspecifiedHeightFallback`).
- Under Bound EXACTLY, an unset box width (0) stays 0. The cap
  `min(expected, max)` only lowers the expected width, so the boxes never grow
  to fill the chain. With 4 cells, border 2, divider 2, merging enabled and
  width 400, the boxes are 0 wide, not the
  `(400 − 16 − (2 − 4)·3)/4 = 97.5` a fill-the-width reading would give.
  The model follows the code (`UnsetBoxWidthStaysZero`).

The source divides by the closed forms' denominators and by the cell count
without guarding either. The model makes those divisions preconditions
(`WidthComputable`, `Denominator(..) > 0`, `passwordLength >= 1`).

## Model

| member | source | states |
|---|---|---|
| Config.DefaultSize | lib-widget/src/main/java/com/hyh/widget/PasswordView.java:857 | getDefaultSize as the measurers use it: the suggested minimum when the mode is UNSPECIFIED, the spec's size under EXACTLY and AT_MOST |
| Metrics.Cleared | lib-widget/src/main/java/com/hyh/widget/PasswordView.java:806-812 | clear zeroes every field and the flag except measureHeight, which keeps its old value |
| Metrics.ClearedDiffersOnlyInHeight | lib-widget/src/main/java/com/hyh/widget/PasswordView.java:806-812 | two cleared records are equal iff the heights left before clear are equal; apart from the height they always agree |
| Metrics.MeasureResult.constructor | lib-widget/src/main/java/com/hyh/widget/PasswordView.java:795-804 | a new record has every float at 0 and mergedRectBox false |
| Metrics.MeasureResult.Clear | lib-widget/src/main/java/com/hyh/widget/PasswordView.java:806-812 | the record afterwards is Cleared of the record before (measureHeight survives) |
| Metrics.MeasureResult.Copy | lib-widget/src/main/java/com/hyh/widget/PasswordView.java:814-824 | the record takes all nine field values of the other record; the other record is unchanged when it is a different object |
| ChainHelper.ComputeFreeChainWidth | lib-widget/src/main/java/com/hyh/widget/PasswordView.java:1243-1260 | the closed form is a fixed point: the returned width equals the padding, boxes, borders, merge adjustment and N−1 spaces that a chain of that width needs (percent sizes taken of that same width) |
| ChainHelper.ComputeSpreadChainWidth | lib-widget/src/main/java/com/hyh/widget/PasswordView.java:1262-1279 | the same fixed-point property with N+1 spaces |
| ChainHelper.ComputeSpreadInsideChainWidth | lib-widget/src/main/java/com/hyh/widget/PasswordView.java:1281-1299 | the same fixed-point property with N−1 spaces |
| ChainHelper.ComputePacketChainWidth | lib-widget/src/main/java/com/hyh/widget/PasswordView.java:1301-1314 | the same fixed-point property with two space-sized margins; merging does not require zero space here |
| ChainHelper.ComputeChainWidth | lib-widget/src/main/java/com/hyh/widget/PasswordView.java:1225-1241 | dispatching on the chain style yields a fixed point of that style's required-width equation |
| ChainHelper.RequiredWidthAffine | lib-widget/src/main/java/com/hyh/widget/PasswordView.java:1243-1314 | the required width is affine in the chain width: the fixed part plus w·(1 − denominator) |
| ChainHelper.ClosedFormIsFixedPoint | lib-widget/src/main/java/com/hyh/widget/PasswordView.java:1243-1314 | fixed part divided by a positive denominator solves the fixed-point equation |
| ChainHelper.FixedPointsCoincide | lib-widget/src/main/java/com/hyh/widget/PasswordView.java:1243-1314 | with a positive denominator, two fixed points of one style's equation are equal |
| ChainHelper.ChainWidthUnique | lib-widget/src/main/java/com/hyh/widget/PasswordView.java:1225-1314 | any width satisfying the fixed-point equation is the one computeChainWidth returns |
| ChainHelper.FreeChain | lib-widget/src/main/java/com/hyh/widget/PasswordView.java:1354-1365 | Free: the configured space (or its percent of the width), margin 0, merged iff mergeable and the space is 0 |
| ChainHelper.SpreadChain | lib-widget/src/main/java/com/hyh/widget/PasswordView.java:1366-1392 | Spread: a positive surplus is shared equally by N−1 spaces and two margins (N>1) or by two half margins (N=1); otherwise space 0 and the margins take half of what merging saves; space and margin never negative |
| ChainHelper.SpreadInsideChain | lib-widget/src/main/java/com/hyh/widget/PasswordView.java:1393-1421 | SpreadInside: margin 0; a positive surplus goes to the N−1 spaces; without surplus merging survives iff it leaves no surplus; space never negative |
| ChainHelper.PacketChain | lib-widget/src/main/java/com/hyh/widget/PasswordView.java:1422-1437 | Packet: space 0, merged iff mergeable, margins half the surplus after the merge adjustment or 0 |
| ChainHelper.ChainExactly | lib-widget/src/main/java/com/hyh/widget/PasswordView.java:1352-1440 | merged borders imply merging enabled, rect boxes and zero space; outside Free the space and margin are never negative |
| ChainHelper.ChainAbsorbsSurplus | lib-widget/src/main/java/com/hyh/widget/PasswordView.java:1366-1437 | the contract of the surplus (width less padding, expected boxes and their borders): once Spread, SpreadInside or Packet hands out space or margin, merge adjustment plus spaces plus margins equal it exactly |
| ChainHelper.ChainFillsWidth | lib-widget/src/main/java/com/hyh/widget/PasswordView.java:1366-1437 | in that case a chain of expected-width boxes occupies the given width exactly |
| ChainHelper.FixedPointSurplus | lib-widget/src/main/java/com/hyh/widget/PasswordView.java:1243-1314 | at a fixed point, the surplus is the merge adjustment the closed form assumed plus the style's spaces |
| ChainHelper.RoundTripFree | lib-widget/src/main/java/com/hyh/widget/PasswordView.java:1354-1365 | resolving a Free chain at its own fixed-point width consumes exactly that width |
| ChainHelper.RoundTripPacket | lib-widget/src/main/java/com/hyh/widget/PasswordView.java:1422-1437 | the same for Packet |
| ChainHelper.RoundTripSpread | lib-widget/src/main/java/com/hyh/widget/PasswordView.java:1366-1392 | the same for Spread |
| ChainHelper.RoundTripSpreadInside | lib-widget/src/main/java/com/hyh/widget/PasswordView.java:1393-1421 | the same for SpreadInside |
| ChainHelper.UnconstrainedRoundTrip | lib-widget/src/main/java/com/hyh/widget/PasswordView.java:1225-1440 | resolving the chain at the width computeChainWidth chose consumes exactly that width, in every style (non-negative sizes) |
| ChainHelper.MeasureFreeChain | lib-widget/src/main/java/com/hyh/widget/PasswordView.java:1354-1365 | writes the Free resolution into the three chain fields and changes nothing else |
| ChainHelper.MeasureSpreadChain | lib-widget/src/main/java/com/hyh/widget/PasswordView.java:1366-1392 | writes the Spread resolution into the three chain fields and changes nothing else |
| ChainHelper.MeasureSpreadInsideChain | lib-widget/src/main/java/com/hyh/widget/PasswordView.java:1393-1421 | writes the SpreadInside resolution and changes nothing else |
| ChainHelper.MeasurePacketChain | lib-widget/src/main/java/com/hyh/widget/PasswordView.java:1422-1437 | writes the Packet resolution and changes nothing else |
| ChainHelper.MeasureBoxChainExactly | lib-widget/src/main/java/com/hyh/widget/PasswordView.java:1352-1440 | the record afterwards is the old record with the style's chain resolution written in |
| Measurers.MaxBoxWidthFits | lib-widget/src/main/java/com/hyh/widget/PasswordView.java:970-978 | the contract of the maxBoxWidth computation: boxes no wider than it make the content fit the width; boxes exactly that wide fill it |
| Measurers.ResolvedWidth | lib-widget/src/main/java/com/hyh/widget/PasswordView.java:857-866 | the width pass at a known width: that width, the expected box width, and the chain fields equal to measureBoxChainExactly's resolution at that width; heights and content sums untouched |
| Measurers.UnconstrainedWidth | lib-widget/src/main/java/com/hyh/widget/PasswordView.java:845-855 | with the width open the reported width is a fixed point of the chain equation and the box width is the expected width |
| Measurers.FittedWidth | lib-widget/src/main/java/com/hyh/widget/PasswordView.java:959-980 | Bound's fitted pass never reports boxes wider than expected, never overflows the width, and fills it whenever the expected width reaches the cap |
| Measurers.BoundAtMostFreeWidth | lib-widget/src/main/java/com/hyh/widget/PasswordView.java:983-1016 | width at most the host bound and the chain's own width; configured space, margin 0; merged iff mergeable and the OLD record's space is 0; boxes within the (clamped) cap computed from the old space and margin |
| Measurers.FreeAtMostFreeWidth | lib-widget/src/main/java/com/hyh/widget/PasswordView.java:1141-1162 | Free's AT_MOST Free pass reports the chain's own width, uncapped, with the expected box width and the configured space |
| Measurers.FillWidth | lib-widget/src/main/java/com/hyh/widget/PasswordView.java:838-867 | a constrained width is reported as the host's size with the chain resolved at it; the box width is always the expected width; merged implies zero space |
| Measurers.BoundWidth | lib-widget/src/main/java/com/hyh/widget/PasswordView.java:941-1043 | EXACTLY reports the host width; AT_MOST never exceeds it; outside Free a constrained layout fits the reported width |
| Measurers.FreeWidth | lib-widget/src/main/java/com/hyh/widget/PasswordView.java:1108-1178 | EXACTLY (and AT_MOST outside Free) report the host width with the chain resolved at it; the box width is always the expected width, never capped |
| Measurers.MaxBoxHeight | lib-widget/src/main/java/com/hyh/widget/PasswordView.java:889-893 | the room for a box is never negative and at least the host height minus padding and borders |
| Measurers.ClampedBoxHeight | lib-widget/src/main/java/com/hyh/widget/PasswordView.java:895-904 | a desired height of 0 takes all the room; any other is min(room, desired), so a desired height that fits is kept |
| Measurers.ConstrainedHeight | lib-widget/src/main/java/com/hyh/widget/PasswordView.java:887-926 | Fill and Bound under EXACTLY/AT_MOST: a desired height of 0 takes all the room, any other is min(room, desired); EXACTLY reports the host height, AT_MOST the content height; only the two height fields change |
| Measurers.FillHeight | lib-widget/src/main/java/com/hyh/widget/PasswordView.java:869-930 | with the height open, a desired height of 0 falls back to the suggested minimum less padding and borders; the reported height is the content height except under EXACTLY |
| Measurers.BoundHeight | lib-widget/src/main/java/com/hyh/widget/PasswordView.java:1045-1099 | with the height open the box height is the desired height, no fallback; only the two height fields change |
| Measurers.FreeHeight | lib-widget/src/main/java/com/hyh/widget/PasswordView.java:1180-1220 | box height never capped by the host; EXACTLY clamps it at 0 and reports the host height; AT_MOST reports min(host height, content height) |
| Measurers.MeasurePass | lib-widget/src/main/java/com/hyh/widget/PasswordView.java:830-836 | a measure pass keeps the width, box width, space, margin and merge flag its width pass chose (no height pass writes them), and leaves the content sums as they were |
| Measurers.BoundExactlyFits | lib-widget/src/main/java/com/hyh/widget/PasswordView.java:959-980 | Bound EXACTLY: box width = min(expected, maxBoxWidth); content never exceeds the width and equals it once expected reaches the cap |
| Measurers.ConstrainedHeightClamp | lib-widget/src/main/java/com/hyh/widget/PasswordView.java:887-926 | Fill and Bound under a constrained height: box height within the room, 0 desired takes all of it, EXACTLY reports the host height, AT_MOST stays within it when there is room |
| Measurers.UnspecifiedHeightFallback | lib-widget/src/main/java/com/hyh/widget/PasswordView.java:872-886 | with the height open and desired box height 0, Fill falls back to the suggested minimum while Bound and Free keep 0 |
| Measurers.ContentWidthReadsChainFields | lib-widget/src/main/java/com/hyh/widget/PasswordView.java:249-254 | the content sum reads only the box width and the three chain fields |
| Measurers.UnconstrainedWidthFits | lib-widget/src/main/java/com/hyh/widget/PasswordView.java:845-855 | the unconstrained width pass occupies exactly the width it reports |
| Measurers.UnspecifiedWidthConsistent | lib-widget/src/main/java/com/hyh/widget/PasswordView.java:830-836 | with the width open, every measurer's result has a content sum equal to its reported width |
| Measurers.ConstrainedWidthFillsHost | lib-widget/src/main/java/com/hyh/widget/PasswordView.java:857-866 | Fill under a host width, and Free under one outside the Free style: once the chain hands out space or margin, the measured layout occupies exactly the host width |
| Measurers.FreeAtMostFreeIsUnconstrained | lib-widget/src/main/java/com/hyh/widget/PasswordView.java:1141-1162 | Free's AT_MOST pass on a Free chain is exactly the unconstrained pass |
| Measurers.StaleHeightIsOverwritten | lib-widget/src/main/java/com/hyh/widget/PasswordView.java:806-812 | the height clear leaves behind never reaches a measure pass's result |
| Measurers.WidthPassIgnoresHeight | lib-widget/src/main/java/com/hyh/widget/PasswordView.java:841-1177 | no width pass reads measureHeight |
| Measurers.UnsetBoxWidthStaysZero | lib-widget/src/main/java/com/hyh/widget/PasswordView.java:959-980 | 4 cells, border 2, merging, width 400, unset box width: merged, cap 97.5, yet the box width stays 0 |
| Measurers.BoundAtMostMergesDespiteSpace | lib-widget/src/main/java/com/hyh/widget/PasswordView.java:994-1015 | Bound AT_MOST Free after clear with space 10: reports merged borders and space 10 |
| Measurers.FreeAtMostOverflows | lib-widget/src/main/java/com/hyh/widget/PasswordView.java:1141-1162 | Free AT_MOST 100 with four 40-wide boxes reports width 176 |
| Measurers.MeasureResolved | lib-widget/src/main/java/com/hyh/widget/PasswordView.java:857-866 | the record afterwards is ResolvedWidth of the record before |
| Measurers.FillMeasureWidth | lib-widget/src/main/java/com/hyh/widget/PasswordView.java:838-867 | the record afterwards is FillWidth of the record before |
| Measurers.CapBoxWidth | lib-widget/src/main/java/com/hyh/widget/PasswordView.java:968-978 | only the box width changes, to min(expected, cap computed from the record's chain fields) |
| Measurers.BoundMeasureFitted | lib-widget/src/main/java/com/hyh/widget/PasswordView.java:959-980 | the record afterwards is FittedWidth of the record before |
| Measurers.BoundMeasureAtMostFree | lib-widget/src/main/java/com/hyh/widget/PasswordView.java:983-1016 | the record afterwards is BoundAtMostFreeWidth of the record before |
| Measurers.BoundMeasureWidth | lib-widget/src/main/java/com/hyh/widget/PasswordView.java:941-1043 | the record afterwards is BoundWidth of the record before |
| Measurers.FreeMeasureWidth | lib-widget/src/main/java/com/hyh/widget/PasswordView.java:1108-1178 | the record afterwards is FreeWidth of the record before |
| Measurers.MeasureConstrainedHeight | lib-widget/src/main/java/com/hyh/widget/PasswordView.java:887-926 | the record afterwards is ConstrainedHeight of the record before |
| Measurers.FillMeasureHeight | lib-widget/src/main/java/com/hyh/widget/PasswordView.java:869-930 | the record afterwards is FillHeight of the record before |
| Measurers.BoundMeasureHeight | lib-widget/src/main/java/com/hyh/widget/PasswordView.java:1045-1099 | the record afterwards is BoundHeight of the record before |
| Measurers.FreeMeasureHeight | lib-widget/src/main/java/com/hyh/widget/PasswordView.java:1180-1220 | the record afterwards is FreeHeight of the record before |
| Measurers.Measure | lib-widget/src/main/java/com/hyh/widget/PasswordView.java:830-836 | the record afterwards is MeasurePass of the record before: width pass, then height pass |
| BoxGeometry.Inset | lib-widget/src/main/java/com/hyh/widget/PasswordView.java:399-403 | shrinking by half a border on every side narrows and lowers the rect by one border and keeps its centre |
| BoxGeometry.StrokeRect | lib-widget/src/main/java/com/hyh/widget/PasswordView.java:367-373 | the rect a cell's border is stroked on is half a border larger than the box on every side, its top half a border down |
| BoxGeometry.IndependentCell | lib-widget/src/main/java/com/hyh/widget/PasswordView.java:373-403 | the rect recorded for a rect or oval cell is box-sized and one border below the top, with or without a border |
| BoxGeometry.IndependentCellAt | lib-widget/src/main/java/com/hyh/widget/PasswordView.java:367-403 | with or without a border, an independent cell is the box-sized area one border in and i pitches along |
| BoxGeometry.IndependentCellsOrdered | lib-widget/src/main/java/com/hyh/widget/PasswordView.java:369-372 | with non-negative sizes a later cell starts at least two borders and a space after an earlier one ends |
| BoxGeometry.MergedCell | lib-widget/src/main/java/com/hyh/widget/PasswordView.java:329-348 | a merged cell is box-sized and one border below the top |
| BoxGeometry.MergedCellAt | lib-widget/src/main/java/com/hyh/widget/PasswordView.java:330-341 | merged cell i starts one border plus i boxes and i dividers in |
| BoxGeometry.MergedMatchesIndependent | lib-widget/src/main/java/com/hyh/widget/PasswordView.java:330-403 | a divider of two borders puts merged cells where spaceless independent cells would be |
| BoxGeometry.MergedCellsOrdered | lib-widget/src/main/java/com/hyh/widget/PasswordView.java:329-348 | with non-negative box and divider, a later merged cell starts at least one divider after an earlier one ends |
| BoxGeometry.UnderlineCell | lib-widget/src/main/java/com/hyh/widget/PasswordView.java:595-614 | an underline cell is the box and both its borders wide, the box high, one border below the top |
| BoxGeometry.UnderlineCellSpansBorders | lib-widget/src/main/java/com/hyh/widget/PasswordView.java:597-614 | an underline cell is the independent cell widened by one border on each side |
| BoxGeometry.UnderlineCellsOrdered | lib-widget/src/main/java/com/hyh/widget/PasswordView.java:595-614 | with non-negative sizes, a later underline cell starts at least one space after an earlier one ends |
| BoxGeometry.MergedRowExtent | lib-widget/src/main/java/com/hyh/widget/PasswordView.java:329-348 | a row of n merged cells runs from one border in to n boxes and n−1 dividers further, less one border |
| BoxGeometry.IndependentRowExtent | lib-widget/src/main/java/com/hyh/widget/PasswordView.java:367-403 | a row of n independent cells ends one border short of n boxes, 2n borders and n−1 spaces; an underline row ends exactly there and starts at 0 |
| BoxGeometry.MergedFrameEnclosesCells | lib-widget/src/main/java/com/hyh/widget/PasswordView.java:315-319 | the contract of the merged frame: with the merged chain's own content sums, the outer stroke runs half a border outside the first and last cells |
| BoxGeometry.CornerRadii | lib-widget/src/main/java/com/hyh/widget/PasswordView.java:437-484 | eight radii, each 0 or the radius; seams never rounded; the first cell rounds its left corners and the last (if not first) its right ones |
| BoxGeometry.SingleMergedCellRoundsLeftOnly | lib-widget/src/main/java/com/hyh/widget/PasswordView.java:440-455 | a one-cell chain rounds only its left corners, because index 0 is tested first |
| BoxGeometry.BoxBackgroundRadius | lib-widget/src/main/java/com/hyh/widget/PasswordView.java:486-493 | 0 without a radius or a border; never above the box radius; equal to it for borders up to 2/3 dp; otherwise radius − 1.5·border/density + 1 |
| BoxGeometry.BoxBackgroundRadiusMonotone | lib-widget/src/main/java/com/hyh/widget/PasswordView.java:486-493 | a thicker border never leaves a larger background radius |
| PasswordWidget.Remeasured | lib-widget/src/main/java/com/hyh/widget/PasswordView.java:233-264 | without a measurer both records are cleared; otherwise the content sums come from the previous measured record |
| PasswordWidget.StaleExampleWidthPass | lib-widget/src/main/java/com/hyh/widget/PasswordView.java:838-867 | the 4-cell Fill example at exact width 400 resolves to 40-wide boxes, no space, no margin, unmerged |
| PasswordWidget.RemeasuredKeepsWidthPass | lib-widget/src/main/java/com/hyh/widget/PasswordView.java:242-261 | onMeasure publishes the width pass's width, box width and chain fields unchanged |
| PasswordWidget.FirstPassContentIsStale | lib-widget/src/main/java/com/hyh/widget/PasswordView.java:249-258 | the first pass over an empty record reports content 16 for a layout that occupies 176 |
| PasswordWidget.OnMeasureSettles | lib-widget/src/main/java/com/hyh/widget/PasswordView.java:233-264 | after a second pass the content sums are those of the layout itself, and a third pass changes nothing |
| PasswordWidget.SettledContentMatchesUnspecifiedWidth | lib-widget/src/main/java/com/hyh/widget/PasswordView.java:249-258 | with the width open the settled content width equals the reported width |
| PasswordWidget.CellRow | lib-widget/src/main/java/com/hyh/widget/PasswordView.java:330-431 | one rect per cell, each the rect that box type's loop records |
| PasswordWidget.Overlay | lib-widget/src/main/java/com/hyh/widget/PasswordView.java:342-349 | the cell list after the loop: as long as the longer of the old list and the row, its prefix is the row, older entries past it are kept |
| PasswordWidget.OverlayStep | lib-widget/src/main/java/com/hyh/widget/PasswordView.java:342-349 | one more cell overwrites the next entry or appends it |
| PasswordWidget.OverlayExtends | lib-widget/src/main/java/com/hyh/widget/PasswordView.java:342-349 | writing cell i of the row over the overlay of the first i cells gives the overlay of i+1 cells |
| PasswordWidget.MergedRowSeams | lib-widget/src/main/java/com/hyh/widget/PasswordView.java:330-341 | each merged cell starts one divider after the previous one ends, is a box wide, and the first starts one border in |
| PasswordWidget.CellRowOrdered | lib-widget/src/main/java/com/hyh/widget/PasswordView.java:329-431 | for every box type and non-negative sizes, the cells drawBox records come left to right without overlap |
| PasswordWidget.ContentSumsSpanRow | lib-widget/src/main/java/com/hyh/widget/PasswordView.java:249-258 | onMeasure's content width is padding, two margins and the recorded row up to its last cell's outer border; its content height is padding and the cells down to their bottom border |
| PasswordWidget.CursorLine | lib-widget/src/main/java/com/hyh/widget/PasswordView.java:622-645 | a line is drawn iff focused, in the visible blink phase and the text is shorter than N; it is vertical, in the next cell, its x half a cursor width left of the cell centre, inset by the margins, inside the cell when the cursor fits |
| PasswordWidget.AfterTicksParity | lib-widget/src/main/java/com/hyh/widget/PasswordView.java:723-731 | after k toggles an enabled cursor has flipped iff k is odd; a disabled one never changes |
| PasswordWidget.Utf16Length | lib-widget/src/main/java/com/hyh/widget/PasswordView.java:710 | the length Editable.length() reports: between the character count and twice it |
| PasswordWidget.Utf16LengthCountsSurrogates | lib-widget/src/main/java/com/hyh/widget/PasswordView.java:710 | the UTF-16 length equals the character count iff every character lies in the Basic Multilingual Plane |
| PasswordWidget.AfterTextChanged | lib-widget/src/main/java/com/hyh/widget/PasswordView.java:706-718 | without a listener nothing; otherwise onChanged first, onCleared iff the text is empty, onFinished iff its UTF-16 length is N (> 0), with the full text |
| PasswordWidget.ClearedAndFinishedExclusive | lib-widget/src/main/java/com/hyh/widget/PasswordView.java:706-718 | one change never fires both onCleared and onFinished |
| PasswordWidget.SurrogatePairFinishes | lib-widget/src/main/java/com/hyh/widget/PasswordView.java:706-718 | one emoji typed into a two-box view is reported as a finished password |
| PasswordWidget.PasswordView.constructor | lib-widget/src/main/java/com/hyh/widget/PasswordView.java:60-84 | two distinct fresh zeroed records, an empty cell list, a fresh 8-entry radii array, blink phase hidden |
| PasswordWidget.PasswordView.FormContentSizes | lib-widget/src/main/java/com/hyh/widget/PasswordView.java:249-258 | the working record's content sums become those of the measured record; nothing else changes |
| PasswordWidget.PasswordView.MeasureAndPublish | lib-widget/src/main/java/com/hyh/widget/PasswordView.java:242-261 | measure, form the sums from the old measured record, copy: both records end as Remeasured |
| PasswordWidget.PasswordView.OnMeasure | lib-widget/src/main/java/com/hyh/widget/PasswordView.java:233-264 | the measured record ends as Remeasured of both records before; the working record equals it, or is cleared when there is no measurer |
| PasswordWidget.PasswordView.RecordCell | lib-widget/src/main/java/com/hyh/widget/PasswordView.java:342-349 | the set-or-add of the loops extends the overlay by one cell of the row |
| PasswordWidget.PasswordView.DrawMergedRectBoxBackground | lib-widget/src/main/java/com/hyh/widget/PasswordView.java:437-484 | the radii array holds CornerRadii for the cell with the background radius |
| PasswordWidget.PasswordView.DrawMergedCells | lib-widget/src/main/java/com/hyh/widget/PasswordView.java:330-362 | the cell list becomes the overlay of the merged row; the radii are those of the last cell (unchanged for N = 0) |
| PasswordWidget.PasswordView.DrawStrokedCells | lib-widget/src/main/java/com/hyh/widget/PasswordView.java:367-431 | the cell list becomes the overlay of the independent row |
| PasswordWidget.PasswordView.DrawUnderlineCells | lib-widget/src/main/java/com/hyh/widget/PasswordView.java:595-617 | the cell list becomes the overlay of the underline row |
| PasswordWidget.PasswordView.DrawBox | lib-widget/src/main/java/com/hyh/widget/PasswordView.java:281-294 | returns the cell list, which is the overlay of the box type's row, at least N long; the radii change only for a merged rect chain |
| PasswordWidget.PasswordView.ToggleCursor | lib-widget/src/main/java/com/hyh/widget/PasswordView.java:723-731 | one run flips the blink phase when the cursor is enabled and leaves it otherwise |

## Left out

- Canvas and Paint calls: strokes, fills, saveLayer and Xfermode, and the lines and paths drawn. The model keeps only the rects recorded and the radii written.
- drawText and glyph placement: font metrics are platform state.
- The Handler, the 500 ms reposting, postInvalidate, and the attach/detach and focus callbacks that start and stop the blink. ToggleCursor models one run of the task without rescheduling.
- init: attribute loading and density lookup. The InputFilter, ActionMode suppression and setLayerType are not layout logic.
- Math.round and setMeasuredDimension: onMeasure's result is the measured record itself.
- The fallback to a plain copy when the measure info cannot be cloned.
- The identity and aliasing of the RectF objects in the cell list. Rects are values, and reusing an entry is overwriting it.
- The SDK-version branch of the stroked loop: both branches record the same rect.
- Integer overflow of the int paddings and host sizes, and float rounding: floats are reals.
- Measurers.WidthComputable: the source divides by the closed-form denominators and by the cell count unguarded. The model requires them positive instead of modelling a division by zero.
- BoxGeometry.BoxBackgroundRadius: requires a positive density. The source reads a density the platform always provides.
- Config.MeasureInfo.passwordLength is a nat: a negative cell count is not modelled.
