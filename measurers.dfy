/** The three measurer strategies (FillMeasurer, BoundMeasurer,
    FreeMeasurer). Each combines the host's width and height modes with the
    chain helper and fills in a MeasureResult: the width pass first, then the
    height pass, which reads the box width the width pass left behind. The
    functions say what each pass leaves in the record; the methods do it field
    by field, as the source does. */
module Measurers {
  import opened Config
  import opened Metrics
  import opened ChainHelper

  /** The divisions a width pass performs are defined: the closed form the
      unconstrained path (and an AT_MOST Free chain outside Fill) solves has a
      positive denominator, and a Bound measurer that fits boxes into a host
      width divides by a positive box count. */
  predicate WidthComputable(kind: Measurer, info: MeasureInfo, spec: MeasureSpec)
  {
    && (spec.mode == Unspecified ==> Denominator(info.boxChainStyle, info) > 0.0)
    && (spec.mode == AtMost && info.boxChainStyle == Free && kind != Fill ==> Denominator(Free, info) > 0.0)
    && (kind == Bound && spec.mode != Unspecified ==> info.passwordLength >= 1)
  }

  /** The widest box that still fits `width` beside the borders, the merge
      adjustment, the spaces, the padding and the two margins. */
  function MaxBoxWidth(width: real, horizontalPadding: int, info: MeasureInfo,
                       merged: bool, space: real, margin: real): real
    requires info.passwordLength >= 1
  {
    var n := info.passwordLength as real;
    (width
     - info.boxBorderSize * 2.0 * n
     - (if merged then MergeAdjustment(info) else 0.0)
     - space * (n - 1.0)
     - horizontalPadding as real
     - margin * 2.0)
    / n
  }

  /** A chain whose boxes are no wider than MaxBoxWidth fits the width, and
      boxes exactly that wide fill it. */
  lemma MaxBoxWidthFits(width: real, horizontalPadding: int, info: MeasureInfo, m: Measurement)
    requires info.passwordLength >= 1
    requires m.measureBoxWidth <= MaxBoxWidth(width, horizontalPadding, info, m.mergedRectBox,
                                              m.measureBoxSpace, m.measureBoxChainMargin)
    ensures ContentWidth(info, horizontalPadding, m) <= width
    ensures m.measureBoxWidth == MaxBoxWidth(width, horizontalPadding, info, m.mergedRectBox,
                                             m.measureBoxSpace, m.measureBoxChainMargin)
            ==> ContentWidth(info, horizontalPadding, m) == width
  {
    var n := info.passwordLength as real;
    var mx := MaxBoxWidth(width, horizontalPadding, info, m.mergedRectBox, m.measureBoxSpace, m.measureBoxChainMargin);
    var rest := ContentWidth(info, horizontalPadding, m) - m.measureBoxWidth * n;
    assert mx * n == width - rest;
    assert m.measureBoxWidth * n <= mx * n;
  }

  /** The width pass once the total width is known, without fitting: boxes of
      the expected width, chain resolved at that width (Fill always, Free
      when the host fixes the width, every measurer when it does not). */
  function ResolvedWidth(info: MeasureInfo, horizontalPadding: int, width: real, m: Measurement): (r: Measurement)
    ensures r.measureWidth == width && r.measureBoxWidth == ExpectedBoxWidth(info, width)
    // the chain fields hold measureBoxChainExactly's resolution at that width
    ensures Chain(r.measureBoxSpace, r.measureBoxChainMargin, r.mergedRectBox)
            == ChainExactly(width, ExpectedBoxWidth(info, width), horizontalPadding, info)
    ensures r.mergedRectBox ==> r.measureBoxSpace == 0.0
    ensures r.measureHeight == m.measureHeight && r.measureBoxHeight == m.measureBoxHeight
    ensures r.measureContentWidth == m.measureContentWidth && r.measureContentHeight == m.measureContentHeight
  {
    var boxWidth := ExpectedBoxWidth(info, width);
    WithChain(m.(measureWidth := width, measureBoxWidth := boxWidth),
              ChainExactly(width, boxWidth, horizontalPadding, info))
  }

  /** The width pass with the host width open: the chain's own width. */
  function UnconstrainedWidth(info: MeasureInfo, horizontalPadding: int, m: Measurement): (r: Measurement)
    requires Denominator(info.boxChainStyle, info) > 0.0
    ensures r.measureWidth == RequiredWidth(info.boxChainStyle, info, horizontalPadding, r.measureWidth)
    ensures r.measureBoxWidth == ExpectedBoxWidth(info, r.measureWidth)
    ensures r.mergedRectBox ==> r.measureBoxSpace == 0.0
  {
    ResolvedWidth(info, horizontalPadding, ComputeChainWidth(info, horizontalPadding), m)
  }

  /** Bound's fitting width pass (EXACTLY, and AT_MOST outside the Free
      style): chain resolved at the host width, then the expected box width
      capped by what is left. */
  function FittedWidth(info: MeasureInfo, horizontalPadding: int, width: real, m: Measurement): (r: Measurement)
    requires info.passwordLength >= 1
    ensures r.measureWidth == width
    ensures r.measureBoxWidth <= ExpectedBoxWidth(info, width)
    ensures ContentWidth(info, horizontalPadding, r) <= width
    ensures ExpectedBoxWidth(info, width)
            >= MaxBoxWidth(width, horizontalPadding, info, r.mergedRectBox, r.measureBoxSpace, r.measureBoxChainMargin)
            ==> ContentWidth(info, horizontalPadding, r) == width
    ensures r.mergedRectBox ==> r.measureBoxSpace == 0.0
    ensures r.measureHeight == m.measureHeight && r.measureBoxHeight == m.measureBoxHeight
  {
    var expected := ExpectedBoxWidth(info, width);
    var c := ChainExactly(width, expected, horizontalPadding, info);
    var maxBoxWidth := MaxBoxWidth(width, horizontalPadding, info, c.merged, c.boxSpace, c.chainMargin);
    var r := WithChain(m.(measureWidth := width), c).(measureBoxWidth := Min(expected, maxBoxWidth));
    MaxBoxWidthFits(width, horizontalPadding, info, r);
    r
  }

  /** Bound's AT_MOST pass for a Free chain: the chain's own width capped by
      the host's, boxes capped to fit the host width. The merge test and the
      cap read the record's space and margin, which still hold what the
      record held before the pass (0 after `clear`), not the space computed here. */
  function BoundAtMostFreeWidth(info: MeasureInfo, horizontalPadding: int, maxWidth: real, m: Measurement): (r: Measurement)
    requires info.passwordLength >= 1 && Denominator(Free, info) > 0.0
    ensures r.measureWidth <= maxWidth
    ensures r.measureWidth <= ComputeFreeChainWidth(info, horizontalPadding)
    ensures r.measureBoxSpace == ExpectedBoxSpace(info, r.measureWidth) && r.measureBoxChainMargin == 0.0
    ensures r.mergedRectBox <==> Mergeable(info) && m.measureBoxSpace == 0.0
    ensures r.measureBoxWidth <= Max(0.0, MaxBoxWidth(maxWidth, horizontalPadding, info, r.mergedRectBox,
                                                      m.measureBoxSpace, m.measureBoxChainMargin))
    ensures r.measureHeight == m.measureHeight && r.measureBoxHeight == m.measureBoxHeight
  {
    var width := Min(maxWidth, ComputeFreeChainWidth(info, horizontalPadding));
    var boxSpace := ExpectedBoxSpace(info, width);
    var mergeRectBox := Mergeable(info) && m.measureBoxSpace == 0.0;
    var maxBoxWidth := Max(0.0, MaxBoxWidth(maxWidth, horizontalPadding, info, mergeRectBox,
                                            m.measureBoxSpace, m.measureBoxChainMargin));
    var boxWidth := Min(maxBoxWidth, ExpectedBoxWidth(info, width));
    m.(measureWidth := width, measureBoxSpace := boxSpace, measureBoxChainMargin := 0.0,
       mergedRectBox := mergeRectBox, measureBoxWidth := boxWidth)
  }

  /** Free's AT_MOST pass for a Free chain: the chain's own width, uncapped. */
  function FreeAtMostFreeWidth(info: MeasureInfo, horizontalPadding: int, m: Measurement): (r: Measurement)
    requires Denominator(Free, info) > 0.0
    ensures r.measureWidth == ComputeFreeChainWidth(info, horizontalPadding)
    ensures r.measureBoxSpace == ExpectedBoxSpace(info, r.measureWidth) && r.measureBoxChainMargin == 0.0
    ensures r.mergedRectBox <==> Mergeable(info) && r.measureBoxSpace == 0.0
    ensures r.measureBoxWidth == ExpectedBoxWidth(info, r.measureWidth)
    ensures r.measureHeight == m.measureHeight && r.measureBoxHeight == m.measureBoxHeight
  {
    var width := ComputeFreeChainWidth(info, horizontalPadding);
    var boxSpace := ExpectedBoxSpace(info, width);
    m.(measureWidth := width, measureBoxSpace := boxSpace, measureBoxChainMargin := 0.0,
       mergedRectBox := Mergeable(info) && boxSpace == 0.0,
       measureBoxWidth := ExpectedBoxWidth(info, width))
  }

  /** FillMeasurer.measureWidth: every mode resolves the chain at one width. */
  function FillWidth(info: MeasureInfo, host: Host, m: Measurement): (r: Measurement)
    requires WidthComputable(Fill, info, host.widthSpec)
    ensures host.widthSpec.mode != Unspecified ==> r.measureWidth == host.widthSpec.size as real
    ensures host.widthSpec.mode != Unspecified ==>
              Chain(r.measureBoxSpace, r.measureBoxChainMargin, r.mergedRectBox)
              == ChainExactly(r.measureWidth, r.measureBoxWidth, host.HorizontalPadding(), info)
    ensures r.measureBoxWidth == ExpectedBoxWidth(info, r.measureWidth)
    ensures r.mergedRectBox ==> r.measureBoxSpace == 0.0
  {
    var hp := host.HorizontalPadding();
    if host.widthSpec.mode == Unspecified then UnconstrainedWidth(info, hp, m)
    else ResolvedWidth(info, hp, DefaultSize(host.suggestedMinimumWidth, host.widthSpec) as real, m)
  }

  /** BoundMeasurer.measureWidth. */
  function BoundWidth(info: MeasureInfo, host: Host, m: Measurement): (r: Measurement)
    requires WidthComputable(Bound, info, host.widthSpec)
    ensures host.widthSpec.mode == Exactly ==> r.measureWidth == host.widthSpec.size as real
    ensures host.widthSpec.mode == AtMost ==> r.measureWidth <= host.widthSpec.size as real
    ensures host.widthSpec.mode != Unspecified && info.boxChainStyle != Free ==>
              ContentWidth(info, host.HorizontalPadding(), r) <= r.measureWidth
    ensures !(host.widthSpec.mode == AtMost && info.boxChainStyle == Free) ==>
              (r.mergedRectBox ==> r.measureBoxSpace == 0.0)
  {
    var hp := host.HorizontalPadding();
    var size := DefaultSize(host.suggestedMinimumWidth, host.widthSpec) as real;
    match host.widthSpec.mode
    case Unspecified => UnconstrainedWidth(info, hp, m)
    case Exactly => FittedWidth(info, hp, size, m)
    case AtMost =>
      if info.boxChainStyle == Free then BoundAtMostFreeWidth(info, hp, size, m)
      else FittedWidth(info, hp, size, m)
  }

  /** FreeMeasurer.measureWidth. */
  function FreeWidth(info: MeasureInfo, host: Host, m: Measurement): (r: Measurement)
    requires WidthComputable(FreeMeasurer, info, host.widthSpec)
    ensures host.widthSpec.mode == Exactly ==> r.measureWidth == host.widthSpec.size as real
    ensures host.widthSpec.mode == AtMost && info.boxChainStyle != Free ==> r.measureWidth == host.widthSpec.size as real
    ensures host.widthSpec.mode == Exactly || (host.widthSpec.mode == AtMost && info.boxChainStyle != Free) ==>
              Chain(r.measureBoxSpace, r.measureBoxChainMargin, r.mergedRectBox)
              == ChainExactly(r.measureWidth, r.measureBoxWidth, host.HorizontalPadding(), info)
    ensures r.measureBoxWidth == ExpectedBoxWidth(info, r.measureWidth)
    ensures r.mergedRectBox ==> r.measureBoxSpace == 0.0
  {
    var hp := host.HorizontalPadding();
    var size := DefaultSize(host.suggestedMinimumWidth, host.widthSpec) as real;
    match host.widthSpec.mode
    case Unspecified => UnconstrainedWidth(info, hp, m)
    case Exactly => ResolvedWidth(info, hp, size, m)
    case AtMost =>
      if info.boxChainStyle == Free then FreeAtMostFreeWidth(info, hp, m)
      else ResolvedWidth(info, hp, size, m)
  }

  /** The tallest box the host height leaves room for beside padding and borders. */
  function MaxBoxHeight(height: real, verticalPadding: int, info: MeasureInfo): (h: real)
    ensures h >= 0.0 && h >= height - verticalPadding as real - 2.0 * info.boxBorderSize
  {
    Max(0.0, height - verticalPadding as real - 2.0 * info.boxBorderSize)
  }

  /** A desired box height of 0 takes the whole room; any other is capped by it. */
  function ClampedBoxHeight(desired: real, maxBoxHeight: real): (h: real)
    ensures h <= maxBoxHeight
    ensures desired == 0.0 ==> h == maxBoxHeight
    ensures desired != 0.0 ==> h == Min(maxBoxHeight, desired)
  {
    if desired == 0.0 then maxBoxHeight else Min(maxBoxHeight, desired)
  }

  /** The EXACTLY and AT_MOST height passes Fill and Bound share. */
  function ConstrainedHeight(info: MeasureInfo, host: Host, m: Measurement): (r: Measurement)
    requires host.heightSpec.mode != Unspecified
    ensures var size := host.heightSpec.size as real;
            r.measureBoxHeight <= Max(0.0, size - host.VerticalPadding() as real - 2.0 * info.boxBorderSize)
    ensures DesiredBoxHeight(info, m.measureBoxWidth) == 0.0 ==>
              r.measureBoxHeight == Max(0.0, host.heightSpec.size as real - host.VerticalPadding() as real - 2.0 * info.boxBorderSize)
    // a non-zero desired height is kept whenever it fits the room
    ensures DesiredBoxHeight(info, m.measureBoxWidth) != 0.0 ==>
              r.measureBoxHeight == Min(MaxBoxHeight(host.heightSpec.size as real, host.VerticalPadding(), info),
                                        DesiredBoxHeight(info, m.measureBoxWidth))
    ensures host.heightSpec.mode == Exactly ==> r.measureHeight == host.heightSpec.size as real
    ensures host.heightSpec.mode == AtMost ==> r.measureHeight == ContentHeight(info, host.VerticalPadding(), r)
    ensures r.(measureHeight := m.measureHeight, measureBoxHeight := m.measureBoxHeight) == m
  {
    var vp := host.VerticalPadding();
    var height := DefaultSize(host.suggestedMinimumHeight, host.heightSpec) as real;
    var boxHeight := ClampedBoxHeight(DesiredBoxHeight(info, m.measureBoxWidth), MaxBoxHeight(height, vp, info));
    if host.heightSpec.mode == Exactly then
      m.(measureHeight := height, measureBoxHeight := boxHeight)
    else
      m.(measureBoxHeight := boxHeight, measureHeight := boxHeight + vp as real + 2.0 * info.boxBorderSize)
  }

  /** FillMeasurer.measureHeight: with the height open, a desired height of 0
      falls back to the suggested minimum height. */
  function FillHeight(info: MeasureInfo, host: Host, m: Measurement): (r: Measurement)
    ensures host.heightSpec.mode == Unspecified && DesiredBoxHeight(info, m.measureBoxWidth) == 0.0 ==>
              r.measureBoxHeight == Max(0.0, host.suggestedMinimumHeight as real - host.VerticalPadding() as real - 2.0 * info.boxBorderSize)
    ensures host.heightSpec.mode == Unspecified && DesiredBoxHeight(info, m.measureBoxWidth) != 0.0 ==>
              r.measureBoxHeight == DesiredBoxHeight(info, m.measureBoxWidth)
    ensures host.heightSpec.mode != Exactly ==> r.measureHeight == ContentHeight(info, host.VerticalPadding(), r)
    ensures r.(measureHeight := m.measureHeight, measureBoxHeight := m.measureBoxHeight) == m
  {
    var vp := host.VerticalPadding();
    if host.heightSpec.mode == Unspecified then
      var desired := DesiredBoxHeight(info, m.measureBoxWidth);
      var boxHeight :=
        if desired == 0.0 then
          var height := DefaultSize(host.suggestedMinimumHeight, host.heightSpec) as real;
          Max(0.0, height - vp as real - 2.0 * info.boxBorderSize)
        else desired;
      m.(measureBoxHeight := boxHeight, measureHeight := boxHeight + vp as real + 2.0 * info.boxBorderSize)
    else
      ConstrainedHeight(info, host, m)
  }

  /** BoundMeasurer.measureHeight: no fallback when the height is open. */
  function BoundHeight(info: MeasureInfo, host: Host, m: Measurement): (r: Measurement)
    ensures host.heightSpec.mode == Unspecified ==> r.measureBoxHeight == DesiredBoxHeight(info, m.measureBoxWidth)
    ensures host.heightSpec.mode != Exactly ==> r.measureHeight == ContentHeight(info, host.VerticalPadding(), r)
    ensures r.(measureHeight := m.measureHeight, measureBoxHeight := m.measureBoxHeight) == m
  {
    var vp := host.VerticalPadding();
    if host.heightSpec.mode == Unspecified then
      var boxHeight := DesiredBoxHeight(info, m.measureBoxWidth);
      m.(measureBoxHeight := boxHeight, measureHeight := boxHeight + vp as real + 2.0 * info.boxBorderSize)
    else
      ConstrainedHeight(info, host, m)
  }

  /** FreeMeasurer.measureHeight: the box height is never capped by the host;
      under AT_MOST only the view height is. */
  function FreeHeight(info: MeasureInfo, host: Host, m: Measurement): (r: Measurement)
    ensures host.heightSpec.mode == Exactly ==>
              r.measureHeight == host.heightSpec.size as real
              && r.measureBoxHeight == Max(0.0, DesiredBoxHeight(info, m.measureBoxWidth))
    ensures host.heightSpec.mode != Exactly ==> r.measureBoxHeight == DesiredBoxHeight(info, m.measureBoxWidth)
    ensures host.heightSpec.mode == AtMost ==>
              r.measureHeight == Min(host.heightSpec.size as real, ContentHeight(info, host.VerticalPadding(), r))
    ensures host.heightSpec.mode == Unspecified ==> r.measureHeight == ContentHeight(info, host.VerticalPadding(), r)
    ensures r.(measureHeight := m.measureHeight, measureBoxHeight := m.measureBoxHeight) == m
  {
    var vp := host.VerticalPadding();
    var desired := DesiredBoxHeight(info, m.measureBoxWidth);
    match host.heightSpec.mode
    case Unspecified =>
      m.(measureBoxHeight := desired, measureHeight := desired + vp as real + 2.0 * info.boxBorderSize)
    case Exactly =>
      m.(measureHeight := DefaultSize(host.suggestedMinimumHeight, host.heightSpec) as real,
         measureBoxHeight := Max(0.0, desired))
    case AtMost =>
      var maxHeight := DefaultSize(host.suggestedMinimumHeight, host.heightSpec) as real;
      m.(measureBoxHeight := desired,
         measureHeight := Min(maxHeight, desired + vp as real + 2.0 * info.boxBorderSize))
  }

  /** The measurer's measureWidth. */
  function WidthPass(kind: Measurer, info: MeasureInfo, host: Host, m: Measurement): Measurement
    requires WidthComputable(kind, info, host.widthSpec)
  {
    match kind
    case Fill => FillWidth(info, host, m)
    case Bound => BoundWidth(info, host, m)
    case FreeMeasurer => FreeWidth(info, host, m)
  }

  /** IMeasurer.measure: the width pass, then the height pass. */
  function MeasurePass(kind: Measurer, info: MeasureInfo, host: Host, m: Measurement): (r: Measurement)
    requires WidthComputable(kind, info, host.widthSpec)
    // the width, the box width and the chain are the width pass's (no height pass writes them) ...
    ensures var w := WidthPass(kind, info, host, m);
            && r.measureWidth == w.measureWidth && r.measureBoxWidth == w.measureBoxWidth
            && r.measureBoxSpace == w.measureBoxSpace && r.measureBoxChainMargin == w.measureBoxChainMargin
            && r.mergedRectBox == w.mergedRectBox
    // ... and the content sums are left as they were
    ensures r.measureContentWidth == m.measureContentWidth && r.measureContentHeight == m.measureContentHeight
  {
    match kind
    case Fill => FillHeight(info, host, FillWidth(info, host, m))
    case Bound => BoundHeight(info, host, BoundWidth(info, host, m))
    case FreeMeasurer => FreeHeight(info, host, FreeWidth(info, host, m))
  }

  // ---------------------------------------------------------------- properties

  /** Bound under EXACTLY: the box width is the expected width capped by the
      room the chain leaves, the layout never overflows the host width, and it
      fills the host width whenever the expected width reaches the cap. */
  lemma BoundExactlyFits(info: MeasureInfo, host: Host, m: Measurement)
    requires host.widthSpec.mode == Exactly && info.passwordLength >= 1
    ensures var r := BoundWidth(info, host, m);
            var width := host.widthSpec.size as real;
            var maxBoxWidth := MaxBoxWidth(width, host.HorizontalPadding(), info, r.mergedRectBox,
                                           r.measureBoxSpace, r.measureBoxChainMargin);
            && r.measureBoxWidth == Min(ExpectedBoxWidth(info, width), maxBoxWidth)
            && ContentWidth(info, host.HorizontalPadding(), r) <= width
            && (ExpectedBoxWidth(info, width) >= maxBoxWidth ==> ContentWidth(info, host.HorizontalPadding(), r) == width)
  {
    var hp := host.HorizontalPadding();
    var width := host.widthSpec.size as real;
    var c := ChainExactly(width, ExpectedBoxWidth(info, width), hp, info);
    assert BoundWidth(info, host, m) == FittedWidth(info, hp, width, m);
  }

  /** Fill and Bound under a constrained height: the box height never exceeds
      the room the host height leaves, a desired height of 0 takes all of it,
      EXACTLY reports the host height, and AT_MOST reports a height within the
      host's whenever the host leaves room for padding and borders. */
  lemma ConstrainedHeightClamp(kind: Measurer, info: MeasureInfo, host: Host, m: Measurement)
    requires kind != FreeMeasurer && host.heightSpec.mode != Unspecified
    ensures var r := if kind == Fill then FillHeight(info, host, m) else BoundHeight(info, host, m);
            var size := host.heightSpec.size as real;
            var room := size - host.VerticalPadding() as real - 2.0 * info.boxBorderSize;
            && r.measureBoxHeight <= Max(0.0, room)
            && (DesiredBoxHeight(info, m.measureBoxWidth) == 0.0 ==> r.measureBoxHeight == Max(0.0, room))
            && (host.heightSpec.mode == Exactly ==> r.measureHeight == size)
            && (host.heightSpec.mode == AtMost && room >= 0.0 ==> r.measureHeight <= size)
  {
    var r := if kind == Fill then FillHeight(info, host, m) else BoundHeight(info, host, m);
    assert r == ConstrainedHeight(info, host, m);
  }

  /** With the height open, a desired box height of 0 is where Fill and Bound
      part: Fill falls back to the suggested minimum height, Bound keeps 0. */
  lemma UnspecifiedHeightFallback(info: MeasureInfo, host: Host, m: Measurement)
    requires host.heightSpec.mode == Unspecified
    requires DesiredBoxHeight(info, m.measureBoxWidth) == 0.0
    ensures BoundHeight(info, host, m).measureBoxHeight == 0.0
    ensures FillHeight(info, host, m).measureBoxHeight
            == Max(0.0, host.suggestedMinimumHeight as real - host.VerticalPadding() as real - 2.0 * info.boxBorderSize)
    ensures FreeHeight(info, host, m).measureBoxHeight == 0.0
  {
  }

  /** ContentWidth reads only the box width and the three chain fields. */
  lemma ContentWidthReadsChainFields(info: MeasureInfo, horizontalPadding: int, a: Measurement, b: Measurement)
    requires a.measureBoxWidth == b.measureBoxWidth && a.mergedRectBox == b.mergedRectBox
    requires a.measureBoxSpace == b.measureBoxSpace && a.measureBoxChainMargin == b.measureBoxChainMargin
    ensures ContentWidth(info, horizontalPadding, a) == ContentWidth(info, horizontalPadding, b)
  {
  }

  /** The unconstrained width pass occupies exactly the width it reports. */
  lemma UnconstrainedWidthFits(info: MeasureInfo, horizontalPadding: int, m: Measurement)
    requires info.passwordLength >= 1 && NonNegative(info)
    requires Denominator(info.boxChainStyle, info) > 0.0
    requires info.boxSpacePercent == 0.0 || ComputeChainWidth(info, horizontalPadding) > 0.0
    ensures var w := UnconstrainedWidth(info, horizontalPadding, m);
            ContentWidth(info, horizontalPadding, w) == w.measureWidth
  {
    var width := ComputeChainWidth(info, horizontalPadding);
    var boxWidth := ExpectedBoxWidth(info, width);
    var c := ChainExactly(width, boxWidth, horizontalPadding, info);
    var x := WithChain(m, c).(measureBoxWidth := boxWidth);
    UnconstrainedRoundTrip(info, horizontalPadding, m);
    var w := UnconstrainedWidth(info, horizontalPadding, m);
    assert w == ResolvedWidth(info, horizontalPadding, width, m);
    ContentWidthReadsChainFields(info, horizontalPadding, w, x);
  }

  /** With the width open, every measurer reports a width the resolved layout
      occupies exactly: the chain width ComputeChainWidth solves for is the
      sum onMeasure later forms. */
  lemma UnspecifiedWidthConsistent(kind: Measurer, info: MeasureInfo, host: Host, m: Measurement)
    requires host.widthSpec.mode == Unspecified
    requires info.passwordLength >= 1 && NonNegative(info)
    requires Denominator(info.boxChainStyle, info) > 0.0
    requires info.boxSpacePercent == 0.0 || ComputeChainWidth(info, host.HorizontalPadding()) > 0.0
    ensures var r := MeasurePass(kind, info, host, m);
            ContentWidth(info, host.HorizontalPadding(), r) == r.measureWidth
  {
    var hp := host.HorizontalPadding();
    var w := UnconstrainedWidth(info, hp, m);
    UnconstrainedWidthFits(info, hp, m);
    var r := MeasurePass(kind, info, host, m);
    assert r.(measureHeight := w.measureHeight, measureBoxHeight := w.measureBoxHeight) == w by {
      match kind
      case Fill => assert r == FillHeight(info, host, w);
      case Bound => assert r == BoundHeight(info, host, w);
      case FreeMeasurer => assert r == FreeHeight(info, host, w);
    }
    ContentWidthReadsChainFields(info, hp, r, w);
  }

  /** Fill under a host width, and Free under one outside the Free style,
      resolve the chain at the host width around boxes of the expected width:
      once Spread, SpreadInside or Packet hands out any space or margin, the
      measured layout occupies the host width exactly. */
  lemma ConstrainedWidthFillsHost(kind: Measurer, info: MeasureInfo, host: Host, m: Measurement)
    requires kind == Fill || kind == FreeMeasurer
    requires host.widthSpec.mode != Unspecified && info.boxChainStyle != Free
    requires info.passwordLength >= 1
    requires var size := host.widthSpec.size as real;
             var c := ChainExactly(size, ExpectedBoxWidth(info, size), host.HorizontalPadding(), info);
             c.boxSpace > 0.0 || c.chainMargin > 0.0
    ensures var r := MeasurePass(kind, info, host, m);
            && r.measureWidth == host.widthSpec.size as real
            && ContentWidth(info, host.HorizontalPadding(), r) == r.measureWidth
  {
    var hp := host.HorizontalPadding();
    var size := host.widthSpec.size as real;
    var expected := ExpectedBoxWidth(info, size);
    var filled := WithChain(m, ChainExactly(size, expected, hp, info)).(measureBoxWidth := expected);
    assert WidthPass(kind, info, host, m) == ResolvedWidth(info, hp, size, m);
    ChainFillsWidth(size, expected, hp, info, m);
    ContentWidthReadsChainFields(info, hp, MeasurePass(kind, info, host, m), filled);
  }

  /** Free's AT_MOST pass for a Free chain ignores the host width altogether:
      it is the unconstrained pass. */
  lemma FreeAtMostFreeIsUnconstrained(info: MeasureInfo, host: Host, m: Measurement)
    requires host.widthSpec.mode == AtMost && info.boxChainStyle == Free
    requires Denominator(Free, info) > 0.0
    ensures FreeWidth(info, host, m) == UnconstrainedWidth(info, host.HorizontalPadding(), m)
  {
  }

  /** A record's height before `clear` never reaches the result: every height
      pass writes measureHeight, and no width pass reads it. */
  lemma StaleHeightIsOverwritten(kind: Measurer, info: MeasureInfo, host: Host, m1: Measurement, m2: Measurement)
    requires WidthComputable(kind, info, host.widthSpec)
    ensures MeasurePass(kind, info, host, Cleared(m1)) == MeasurePass(kind, info, host, Cleared(m2))
  {
    var c1, c2 := Cleared(m1), Cleared(m2);
    ClearedDiffersOnlyInHeight(m1, m2);
    match kind
    case Fill =>
      var w1, w2 := FillWidth(info, host, c1), FillWidth(info, host, c2);
      WidthPassIgnoresHeight(kind, info, host, c1, c2);
      assert FillHeight(info, host, w1) == FillHeight(info, host, w2);
    case Bound =>
      var w1, w2 := BoundWidth(info, host, c1), BoundWidth(info, host, c2);
      WidthPassIgnoresHeight(kind, info, host, c1, c2);
      assert BoundHeight(info, host, w1) == BoundHeight(info, host, w2);
    case FreeMeasurer =>
      var w1, w2 := FreeWidth(info, host, c1), FreeWidth(info, host, c2);
      WidthPassIgnoresHeight(kind, info, host, c1, c2);
      assert FreeHeight(info, host, w1) == FreeHeight(info, host, w2);
  }

  /** No width pass reads measureHeight. */
  lemma WidthPassIgnoresHeight(kind: Measurer, info: MeasureInfo, host: Host, a: Measurement, b: Measurement)
    requires WidthComputable(kind, info, host.widthSpec)
    requires a.(measureHeight := 0.0) == b.(measureHeight := 0.0)
    ensures match kind
            case Fill => FillWidth(info, host, a).(measureHeight := 0.0) == FillWidth(info, host, b).(measureHeight := 0.0)
            case Bound => BoundWidth(info, host, a).(measureHeight := 0.0) == BoundWidth(info, host, b).(measureHeight := 0.0)
            case FreeMeasurer => FreeWidth(info, host, a).(measureHeight := 0.0) == FreeWidth(info, host, b).(measureHeight := 0.0)
  {
    var hp := host.HorizontalPadding();
    var size := DefaultSize(host.suggestedMinimumWidth, host.widthSpec) as real;
    if host.widthSpec.mode == AtMost && info.boxChainStyle == Free && kind == Bound {
      var x, y := BoundAtMostFreeWidth(info, hp, size, a), BoundAtMostFreeWidth(info, hp, size, b);
      assert x.(measureHeight := 0.0) == y.(measureHeight := 0.0);
    }
  }

  // ------------------------------------------------------------ quirks, exhibited

  /** The configuration of a 4-box Bound view with an unset box width, border
      2, no space, merging enabled and divider 2, under an exact host width of 400. */
  function UnsetBoxWidthInfo(): MeasureInfo
  {
    MeasureInfo(4, Rect, Free, 0.0, 0.0, 0.0, 0.0, 2.0, 0.0, 0.0, true, 2.0)
  }

  function ExactHost(width: int): Host
  {
    Host(MeasureSpec(Exactly, width), MeasureSpec(Exactly, 100), 0, 0, 0, 0, 0, 0)
  }

  /** An unset box width stays 0 under Bound: the cap only lowers the expected
      width, so the boxes do not grow to the (400 - 16 + 6) / 4 = 97.5 the
      chain would leave them. */
  lemma UnsetBoxWidthStaysZero()
    ensures var r := BoundWidth(UnsetBoxWidthInfo(), ExactHost(400), Cleared(Measurement(0.0, 0.0, 0.0, 0.0, 0.0, 0.0, 0.0, 0.0, false)));
            && r.mergedRectBox
            && MaxBoxWidth(400.0, 0, UnsetBoxWidthInfo(), true, 0.0, 0.0) == 97.5
            && r.measureBoxWidth == 0.0
  {
  }

  /** Bound's AT_MOST pass for a Free chain decides merging from the space the
      record held before the pass (0 after `clear`) and then writes the
      configured space: a record claiming merged borders and a positive space. */
  lemma BoundAtMostMergesDespiteSpace()
    ensures var info := UnsetBoxWidthInfo().(boxWidth := 20.0, boxSpace := 10.0);
            var host := ExactHost(400).(widthSpec := MeasureSpec(AtMost, 400));
            var r := BoundWidth(info, host, Cleared(Measurement(0.0, 0.0, 0.0, 0.0, 0.0, 0.0, 0.0, 0.0, false)));
            r.mergedRectBox && r.measureBoxSpace == 10.0
  {
    var info := UnsetBoxWidthInfo().(boxWidth := 20.0, boxSpace := 10.0);
    var width := ComputeFreeChainWidth(info, 0);
    assert RequiredWidth(Free, info, 0, width) == 80.0 + 16.0 + 30.0;
    assert width == 126.0;
  }

  /** Free's AT_MOST pass for a Free chain can report a width beyond the host's bound. */
  lemma FreeAtMostOverflows()
    ensures var info := UnsetBoxWidthInfo().(boxWidth := 40.0, mergeRectBoxEnabled := false);
            var host := ExactHost(100).(widthSpec := MeasureSpec(AtMost, 100));
            FreeWidth(info, host, Cleared(Measurement(0.0, 0.0, 0.0, 0.0, 0.0, 0.0, 0.0, 0.0, false))).measureWidth == 176.0
  {
    var info := UnsetBoxWidthInfo().(boxWidth := 40.0, mergeRectBoxEnabled := false);
    var width := ComputeFreeChainWidth(info, 0);
    assert RequiredWidth(Free, info, 0, width) == 176.0;
    assert width == 176.0;
    var host := ExactHost(100).(widthSpec := MeasureSpec(AtMost, 100));
    var c := Cleared(Measurement(0.0, 0.0, 0.0, 0.0, 0.0, 0.0, 0.0, 0.0, false));
    assert FreeWidth(info, host, c) == FreeAtMostFreeWidth(info, 0, c);
  }

  // ------------------------------------------------------- the passes, in place

  /** The width-pass steps Fill, Bound (UNSPECIFIED) and Free (outside an
      AT_MOST Free chain) share: record the width, the box width it implies,
      and resolve the chain at that width. */
  method MeasureResolved(width: real, info: MeasureInfo, horizontalPadding: int, result: MeasureResult)
    modifies result
    ensures result.Value() == ResolvedWidth(info, horizontalPadding, width, old(result.Value()))
  {
    result.measureWidth := width;
    var boxWidth := info.boxWidth;
    if info.boxWidthPercent > 0.0 {
      boxWidth := width * info.boxWidthPercent;
    }
    result.measureBoxWidth := boxWidth;
    MeasureBoxChainExactly(width, boxWidth, horizontalPadding, info, result);
  }

  /** FillMeasurer.measureWidth. */
  method FillMeasureWidth(info: MeasureInfo, host: Host, result: MeasureResult)
    requires WidthComputable(Fill, info, host.widthSpec)
    modifies result
    ensures result.Value() == FillWidth(info, host, old(result.Value()))
  {
    var horizontalPadding := host.HorizontalPadding();
    if host.widthSpec.mode == Unspecified {
      var width := ComputeChainWidth(info, horizontalPadding);
      MeasureResolved(width, info, horizontalPadding, result);
    } else {
      var width := DefaultSize(host.suggestedMinimumWidth, host.widthSpec) as real;
      MeasureResolved(width, info, horizontalPadding, result);
    }
  }

  /** The box-width cap BoundMeasurer applies after the chain is resolved,
      reading the chain fields from the record. */
  method CapBoxWidth(width: real, expectedBoxWidth: real, horizontalPadding: int,
                     info: MeasureInfo, result: MeasureResult)
    requires info.passwordLength >= 1
    modifies result
    ensures result.Value() == old(result.Value()).(measureBoxWidth := Min(expectedBoxWidth,
              MaxBoxWidth(width, horizontalPadding, info, old(result.mergedRectBox),
                          old(result.measureBoxSpace), old(result.measureBoxChainMargin))))
  {
    var mergeRectBox := result.mergedRectBox;
    var maxBoxWidth := MaxBoxWidth(width, horizontalPadding, info, mergeRectBox,
                                   result.measureBoxSpace, result.measureBoxChainMargin);
    result.measureBoxWidth := Min(expectedBoxWidth, maxBoxWidth);
  }

  /** BoundMeasurer.measureWidth when the chain is resolved at a known width
      and the boxes are then capped (EXACTLY, and AT_MOST outside Free). */
  method BoundMeasureFitted(width: real, info: MeasureInfo, horizontalPadding: int, result: MeasureResult)
    requires info.passwordLength >= 1
    modifies result
    ensures result.Value() == FittedWidth(info, horizontalPadding, width, old(result.Value()))
  {
    ghost var before := result.Value();
    result.measureWidth := width;
    var expectedBoxWidth := info.boxWidth;
    if info.boxWidthPercent > 0.0 {
      expectedBoxWidth := result.measureWidth * info.boxWidthPercent;
    }
    assert expectedBoxWidth == ExpectedBoxWidth(info, width);
    ghost var c := ChainExactly(width, expectedBoxWidth, horizontalPadding, info);
    MeasureBoxChainExactly(result.measureWidth, expectedBoxWidth, horizontalPadding, info, result);
    assert result.Value() == WithChain(before.(measureWidth := width), c);
    CapBoxWidth(width, expectedBoxWidth, horizontalPadding, info, result);
  }

  /** BoundMeasurer.measureWidth under AT_MOST with a Free chain. */
  method BoundMeasureAtMostFree(maxWidth: real, info: MeasureInfo, horizontalPadding: int, result: MeasureResult)
    requires info.passwordLength >= 1 && Denominator(Free, info) > 0.0
    modifies result
    ensures result.Value() == BoundAtMostFreeWidth(info, horizontalPadding, maxWidth, old(result.Value()))
  {
    var width := ComputeFreeChainWidth(info, horizontalPadding);
    width := Min(maxWidth, width);
    result.measureWidth := width;
    var boxSpace := info.boxSpace;
    if info.boxSpacePercent > 0.0 {
      boxSpace := width * info.boxSpacePercent;
    }
    assert boxSpace == ExpectedBoxSpace(info, width);
    var mergeRectBox := info.mergeRectBoxEnabled && info.boxType == Rect && result.measureBoxSpace == 0.0;
    var maxBoxWidth := MaxBoxWidth(maxWidth, horizontalPadding, info, mergeRectBox,
                                   result.measureBoxSpace, result.measureBoxChainMargin);
    maxBoxWidth := Max(0.0, maxBoxWidth);
    var boxWidth := info.boxWidth;
    if info.boxWidthPercent > 0.0 {
      boxWidth := width * info.boxWidthPercent;
    }
    assert boxWidth == ExpectedBoxWidth(info, width);
    boxWidth := Min(maxBoxWidth, boxWidth);
    result.measureBoxSpace := boxSpace;
    result.measureBoxChainMargin := 0.0;
    result.mergedRectBox := mergeRectBox;
    result.measureBoxWidth := boxWidth;
  }

  /** BoundMeasurer.measureWidth. */
  method BoundMeasureWidth(info: MeasureInfo, host: Host, result: MeasureResult)
    requires WidthComputable(Bound, info, host.widthSpec)
    modifies result
    ensures result.Value() == BoundWidth(info, host, old(result.Value()))
  {
    var horizontalPadding := host.HorizontalPadding();
    match host.widthSpec.mode {
      case Unspecified =>
        var width := ComputeChainWidth(info, horizontalPadding);
        MeasureResolved(width, info, horizontalPadding, result);
      case Exactly =>
        var width := DefaultSize(host.suggestedMinimumWidth, host.widthSpec) as real;
        BoundMeasureFitted(width, info, horizontalPadding, result);
      case AtMost =>
        var maxWidth := DefaultSize(host.suggestedMinimumWidth, host.widthSpec) as real;
        if info.boxChainStyle == Free {
          BoundMeasureAtMostFree(maxWidth, info, horizontalPadding, result);
        } else {
          BoundMeasureFitted(maxWidth, info, horizontalPadding, result);
        }
    }
  }

  /** FreeMeasurer.measureWidth. */
  method FreeMeasureWidth(info: MeasureInfo, host: Host, result: MeasureResult)
    requires WidthComputable(FreeMeasurer, info, host.widthSpec)
    modifies result
    ensures result.Value() == FreeWidth(info, host, old(result.Value()))
  {
    var horizontalPadding := host.HorizontalPadding();
    if host.widthSpec.mode == AtMost && info.boxChainStyle == Free {
      var width := ComputeFreeChainWidth(info, horizontalPadding);
      result.measureWidth := width;
      var boxSpace := info.boxSpace;
      if info.boxSpacePercent > 0.0 {
        boxSpace := width * info.boxSpacePercent;
      }
      var mergeRectBox := info.mergeRectBoxEnabled && info.boxType == Rect && boxSpace == 0.0;
      var boxWidth := info.boxWidth;
      if info.boxWidthPercent > 0.0 {
        boxWidth := width * info.boxWidthPercent;
      }
      result.measureBoxSpace := boxSpace;
      result.measureBoxChainMargin := 0.0;
      result.mergedRectBox := mergeRectBox;
      result.measureBoxWidth := boxWidth;
    } else if host.widthSpec.mode == Unspecified {
      var width := ComputeChainWidth(info, horizontalPadding);
      MeasureResolved(width, info, horizontalPadding, result);
    } else {
      var width := DefaultSize(host.suggestedMinimumWidth, host.widthSpec) as real;
      MeasureResolved(width, info, horizontalPadding, result);
    }
  }

  /** The EXACTLY and AT_MOST height cases Fill and Bound share. */
  method MeasureConstrainedHeight(info: MeasureInfo, host: Host, result: MeasureResult)
    requires host.heightSpec.mode != Unspecified
    modifies result
    ensures result.Value() == ConstrainedHeight(info, host, old(result.Value()))
  {
    var verticalPadding := host.VerticalPadding();
    var height := DefaultSize(host.suggestedMinimumHeight, host.heightSpec) as real;
    if host.heightSpec.mode == Exactly {
      result.measureHeight := height;
    }
    var maxBoxHeight := height - verticalPadding as real - 2.0 * info.boxBorderSize;
    maxBoxHeight := Max(0.0, maxBoxHeight);
    var boxHeight := info.boxHeight;
    if info.boxHeightRatio > 0.0 {
      boxHeight := result.measureBoxWidth * info.boxHeightRatio;
    }
    if boxHeight == 0.0 {
      boxHeight := maxBoxHeight;
    } else {
      boxHeight := Min(maxBoxHeight, boxHeight);
    }
    result.measureBoxHeight := boxHeight;
    if host.heightSpec.mode == AtMost {
      result.measureHeight := boxHeight + verticalPadding as real + 2.0 * info.boxBorderSize;
    }
  }

  /** FillMeasurer.measureHeight. */
  method FillMeasureHeight(info: MeasureInfo, host: Host, result: MeasureResult)
    modifies result
    ensures result.Value() == FillHeight(info, host, old(result.Value()))
  {
    if host.heightSpec.mode == Unspecified {
      var verticalPadding := host.VerticalPadding();
      var boxHeight := info.boxHeight;
      if info.boxHeightRatio > 0.0 {
        boxHeight := result.measureBoxWidth * info.boxHeightRatio;
      }
      if boxHeight == 0.0 {
        var height := DefaultSize(host.suggestedMinimumHeight, host.heightSpec) as real;
        boxHeight := height - verticalPadding as real - 2.0 * info.boxBorderSize;
        boxHeight := Max(0.0, boxHeight);
      }
      result.measureBoxHeight := boxHeight;
      result.measureHeight := boxHeight + verticalPadding as real + 2.0 * info.boxBorderSize;
    } else {
      MeasureConstrainedHeight(info, host, result);
    }
  }

  /** BoundMeasurer.measureHeight. */
  method BoundMeasureHeight(info: MeasureInfo, host: Host, result: MeasureResult)
    modifies result
    ensures result.Value() == BoundHeight(info, host, old(result.Value()))
  {
    if host.heightSpec.mode == Unspecified {
      var verticalPadding := host.VerticalPadding();
      var boxHeight := info.boxHeight;
      if info.boxHeightRatio > 0.0 {
        boxHeight := result.measureBoxWidth * info.boxHeightRatio;
      }
      result.measureBoxHeight := boxHeight;
      result.measureHeight := boxHeight + verticalPadding as real + 2.0 * info.boxBorderSize;
    } else {
      MeasureConstrainedHeight(info, host, result);
    }
  }

  /** FreeMeasurer.measureHeight. */
  method FreeMeasureHeight(info: MeasureInfo, host: Host, result: MeasureResult)
    modifies result
    ensures result.Value() == FreeHeight(info, host, old(result.Value()))
  {
    var verticalPadding := host.VerticalPadding();
    var boxHeight := info.boxHeight;
    if info.boxHeightRatio > 0.0 {
      boxHeight := result.measureBoxWidth * info.boxHeightRatio;
    }
    match host.heightSpec.mode {
      case Unspecified =>
        result.measureBoxHeight := boxHeight;
        result.measureHeight := boxHeight + verticalPadding as real + 2.0 * info.boxBorderSize;
      case Exactly =>
        result.measureHeight := DefaultSize(host.suggestedMinimumHeight, host.heightSpec) as real;
        boxHeight := Max(0.0, boxHeight);
        result.measureBoxHeight := boxHeight;
      case AtMost =>
        var maxHeight := DefaultSize(host.suggestedMinimumHeight, host.heightSpec) as real;
        result.measureBoxHeight := boxHeight;
        var height := boxHeight + verticalPadding as real + 2.0 * info.boxBorderSize;
        height := Min(maxHeight, height);
        result.measureHeight := height;
    }
  }

  /** IMeasurer.measure: the installed measurer's width pass, then its height pass. */
  method Measure(kind: Measurer, info: MeasureInfo, host: Host, result: MeasureResult)
    requires WidthComputable(kind, info, host.widthSpec)
    modifies result
    ensures result.Value() == MeasurePass(kind, info, host, old(result.Value()))
  {
    match kind {
      case Fill =>
        FillMeasureWidth(info, host, result);
        FillMeasureHeight(info, host, result);
      case Bound =>
        BoundMeasureWidth(info, host, result);
        BoundMeasureHeight(info, host, result);
      case FreeMeasurer =>
        FreeMeasureWidth(info, host, result);
        FreeMeasureHeight(info, host, result);
    }
  }
}
