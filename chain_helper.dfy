/** ChainHelper: the chain-width solver. Four closed forms give the width a
    chain of boxes needs when the host leaves the width open (a percent-based
    box width or space makes the width appear on both sides of the equation);
    `MeasureBoxChainExactly` resolves box space, chain margin and the merged
    flag once a width is fixed. */
module ChainHelper {
  import opened Config
  import opened Metrics

  /** How many box spaces a chain style accounts for in its closed form:
      between boxes (Free, SpreadInside), between and around (Spread), or the
      two outer margins only (Packet). */
  function SpaceSlots(style: ChainStyle, n: nat): real
  {
    match style
    case Free => n as real - 1.0
    case Spread => n as real + 1.0
    case SpreadInside => n as real - 1.0
    case Packet => 2.0
  }

  /** Whether the closed form assumes merged borders: the Packet form needs
      only a mergeable configuration, the others also need no box space at all. */
  predicate SolverMerges(style: ChainStyle, info: MeasureInfo)
  {
    if style == Packet then Mergeable(info)
    else Mergeable(info) && info.boxSpace == 0.0 && info.boxSpacePercent == 0.0
  }

  /** The divisor of a closed form; the source divides by it unguarded. */
  function Denominator(style: ChainStyle, info: MeasureInfo): real
  {
    1.0 - info.boxWidthPercent * (info.passwordLength as real) - info.boxSpacePercent * SpaceSlots(style, info.passwordLength)
  }

  /** The width a chain of this style needs when its own total width is `w`:
      padding, N boxes (w times the percent when a percent is set), two
      borders per box, the merge adjustment, and the style's box spaces. */
  function RequiredWidth(style: ChainStyle, info: MeasureInfo, horizontalPadding: int, w: real): real
  {
    var n := info.passwordLength as real;
    horizontalPadding as real
    + n * (if info.boxWidthPercent == 0.0 then info.boxWidth else w * info.boxWidthPercent)
    + info.boxBorderSize * n * 2.0
    + (if SolverMerges(style, info) then MergeAdjustment(info) else 0.0)
    + SpaceSlots(style, info.passwordLength) * (if info.boxSpacePercent == 0.0 then info.boxSpace else w * info.boxSpacePercent)
  }

  /** The part of `RequiredWidth` that does not depend on the width. */
  function FixedPart(style: ChainStyle, info: MeasureInfo, horizontalPadding: int): real
  {
    var n := info.passwordLength as real;
    horizontalPadding as real
    + (if info.boxWidthPercent == 0.0 then info.boxWidth else 0.0) * n
    + info.boxBorderSize * n * 2.0
    + (if SolverMerges(style, info) then MergeAdjustment(info) else 0.0)
    + (if info.boxSpacePercent == 0.0 then info.boxSpace else 0.0) * SpaceSlots(style, info.passwordLength)
  }

  /** RequiredWidth is affine in w: its fixed part plus w times (1 - Denominator). */
  lemma RequiredWidthAffine(style: ChainStyle, info: MeasureInfo, horizontalPadding: int, w: real)
    ensures RequiredWidth(style, info, horizontalPadding, w)
            == FixedPart(style, info, horizontalPadding) + w * (1.0 - Denominator(style, info))
  {
    var n := info.passwordLength as real;
    var p := info.boxWidthPercent;
    var sp := info.boxSpacePercent;
    var k := SpaceSlots(style, info.passwordLength);
    assert n * (if p == 0.0 then info.boxWidth else w * p)
           == (if p == 0.0 then info.boxWidth else 0.0) * n + w * (p * n);
    assert k * (if sp == 0.0 then info.boxSpace else w * sp)
           == (if sp == 0.0 then info.boxSpace else 0.0) * k + w * (sp * k);
    assert w * (1.0 - Denominator(style, info)) == w * (p * n) + w * (sp * k);
  }

  /** The closed form solves the fixed-point equation. */
  lemma ClosedFormIsFixedPoint(style: ChainStyle, info: MeasureInfo, horizontalPadding: int, w: real)
    requires Denominator(style, info) > 0.0
    requires w == FixedPart(style, info, horizontalPadding) / Denominator(style, info)
    ensures w == RequiredWidth(style, info, horizontalPadding, w)
  {
    var d := Denominator(style, info);
    var f := FixedPart(style, info, horizontalPadding);
    RequiredWidthAffine(style, info, horizontalPadding, w);
    assert w * d == f;
    assert f + w * (1.0 - d) == w * d + w - w * d;
  }

  function ComputeFreeChainWidth(info: MeasureInfo, horizontalPadding: int): (width: real)
    requires Denominator(Free, info) > 0.0
    ensures width == RequiredWidth(Free, info, horizontalPadding, width)
  {
    var n := info.passwordLength as real;
    var mergeRectBox := Mergeable(info) && info.boxSpace == 0.0 && info.boxSpacePercent == 0.0;
    var numerator := horizontalPadding as real
                     + (if info.boxWidthPercent == 0.0 then info.boxWidth else 0.0) * n
                     + info.boxBorderSize * n * 2.0
                     + (if mergeRectBox then MergeAdjustment(info) else 0.0)
                     + (if info.boxSpacePercent == 0.0 then info.boxSpace else 0.0) * (n - 1.0);
    var denominator := 1.0 - info.boxWidthPercent * n - info.boxSpacePercent * (n - 1.0);
    assert numerator == FixedPart(Free, info, horizontalPadding);
    assert denominator == Denominator(Free, info);
    var width := numerator / denominator;
    ClosedFormIsFixedPoint(Free, info, horizontalPadding, width);
    width
  }

  function ComputeSpreadChainWidth(info: MeasureInfo, horizontalPadding: int): (width: real)
    requires Denominator(Spread, info) > 0.0
    ensures width == RequiredWidth(Spread, info, horizontalPadding, width)
  {
    var n := info.passwordLength as real;
    var mergeRectBox := Mergeable(info) && info.boxSpace == 0.0 && info.boxSpacePercent == 0.0;
    var numerator := horizontalPadding as real
                     + (if info.boxWidthPercent == 0.0 then info.boxWidth else 0.0) * n
                     + info.boxBorderSize * n * 2.0
                     + (if mergeRectBox then MergeAdjustment(info) else 0.0)
                     + (if info.boxSpacePercent == 0.0 then info.boxSpace else 0.0) * (n + 1.0);
    var denominator := 1.0 - info.boxWidthPercent * n - info.boxSpacePercent * (n + 1.0);
    assert numerator == FixedPart(Spread, info, horizontalPadding);
    assert denominator == Denominator(Spread, info);
    var width := numerator / denominator;
    ClosedFormIsFixedPoint(Spread, info, horizontalPadding, width);
    width
  }

  function ComputeSpreadInsideChainWidth(info: MeasureInfo, horizontalPadding: int): (width: real)
    requires Denominator(SpreadInside, info) > 0.0
    ensures width == RequiredWidth(SpreadInside, info, horizontalPadding, width)
  {
    var n := info.passwordLength as real;
    var mergeRectBox := Mergeable(info) && info.boxSpace == 0.0 && info.boxSpacePercent == 0.0;
    var numerator := horizontalPadding as real
                     + (if info.boxWidthPercent == 0.0 then info.boxWidth else 0.0) * n
                     + info.boxBorderSize * n * 2.0
                     + (if mergeRectBox then MergeAdjustment(info) else 0.0)
                     + (if info.boxSpacePercent == 0.0 then info.boxSpace else 0.0) * (n - 1.0);
    var denominator := 1.0 - info.boxWidthPercent * n - info.boxSpacePercent * (n - 1.0);
    assert numerator == FixedPart(SpreadInside, info, horizontalPadding);
    assert denominator == Denominator(SpreadInside, info);
    var width := numerator / denominator;
    ClosedFormIsFixedPoint(SpreadInside, info, horizontalPadding, width);
    width
  }

  function ComputePacketChainWidth(info: MeasureInfo, horizontalPadding: int): (width: real)
    requires Denominator(Packet, info) > 0.0
    ensures width == RequiredWidth(Packet, info, horizontalPadding, width)
  {
    var n := info.passwordLength as real;
    var mergeRectBox := Mergeable(info);
    var numerator := horizontalPadding as real
                     + (if info.boxWidthPercent == 0.0 then info.boxWidth else 0.0) * n
                     + info.boxBorderSize * n * 2.0
                     + (if mergeRectBox then MergeAdjustment(info) else 0.0)
                     + (if info.boxSpacePercent == 0.0 then info.boxSpace else 0.0) * 2.0;
    var denominator := 1.0 - info.boxWidthPercent * n - info.boxSpacePercent * 2.0;
    assert numerator == FixedPart(Packet, info, horizontalPadding);
    assert denominator == Denominator(Packet, info);
    var width := numerator / denominator;
    ClosedFormIsFixedPoint(Packet, info, horizontalPadding, width);
    width
  }

  /** The width a chain of the configured style needs when the host leaves the width open. */
  function ComputeChainWidth(info: MeasureInfo, horizontalPadding: int): (width: real)
    requires Denominator(info.boxChainStyle, info) > 0.0
    ensures width == RequiredWidth(info.boxChainStyle, info, horizontalPadding, width)
  {
    match info.boxChainStyle
    case Free => ComputeFreeChainWidth(info, horizontalPadding)
    case Spread => ComputeSpreadChainWidth(info, horizontalPadding)
    case SpreadInside => ComputeSpreadInsideChainWidth(info, horizontalPadding)
    case Packet => ComputePacketChainWidth(info, horizontalPadding)
  }

  /** An affine equation with a positive denominator has one solution. */
  lemma AffineFixedPointUnique(f: real, d: real, w: real, c: real)
    requires d > 0.0
    requires w == f + w * (1.0 - d) && c == f + c * (1.0 - d)
    ensures w == c
  {
    assert (w - c) * d == 0.0;
  }

  /** A fixed point of RequiredWidth satisfies the affine equation. */
  lemma FixedPointEquation(style: ChainStyle, info: MeasureInfo, horizontalPadding: int, w: real)
    requires w == RequiredWidth(style, info, horizontalPadding, w)
    ensures w == FixedPart(style, info, horizontalPadding) + w * (1.0 - Denominator(style, info))
  {
    RequiredWidthAffine(style, info, horizontalPadding, w);
  }

  /** Two fixed points of one style's equation coincide. */
  lemma FixedPointsCoincide(style: ChainStyle, info: MeasureInfo, horizontalPadding: int, w: real, c: real)
    requires Denominator(style, info) > 0.0
    requires w == RequiredWidth(style, info, horizontalPadding, w)
    requires c == RequiredWidth(style, info, horizontalPadding, c)
    ensures w == c
  {
    var f := FixedPart(style, info, horizontalPadding);
    var d := Denominator(style, info);
    assert w == f + w * (1.0 - d) by { FixedPointEquation(style, info, horizontalPadding, w); }
    assert c == f + c * (1.0 - d) by { FixedPointEquation(style, info, horizontalPadding, c); }
    AffineFixedPointUnique(f, d, w, c);
  }

  /** The fixed point is unique: any width that equals what the chain needs
      at that width is the one ComputeChainWidth returns. */
  lemma ChainWidthUnique(info: MeasureInfo, horizontalPadding: int, w: real)
    requires Denominator(info.boxChainStyle, info) > 0.0
    requires w == RequiredWidth(info.boxChainStyle, info, horizontalPadding, w)
    ensures w == ComputeChainWidth(info, horizontalPadding)
  {
    FixedPointsCoincide(info.boxChainStyle, info, horizontalPadding, w, ComputeChainWidth(info, horizontalPadding));
  }

  /** What a fixed width resolves to: box space, chain margin and merged flag. */
  datatype Chain = Chain(boxSpace: real, chainMargin: real, merged: bool)

  /** Width left over once padding, the expected boxes and their borders are taken. */
  function Surplus(width: real, expectedBoxWidth: real, horizontalPadding: int, info: MeasureInfo): real
  {
    width - horizontalPadding as real
    - expectedBoxWidth * (info.passwordLength as real)
    - info.boxBorderSize * 2.0 * (info.passwordLength as real)
  }

  /** Merging the borders saves what the merge adjustment costs. */
  lemma MergeSavingIsNegatedAdjustment(info: MeasureInfo)
    ensures (2.0 * info.boxBorderSize - info.mergedRectBoxDividerWidth) * (info.passwordLength as real - 1.0)
            == -MergeAdjustment(info)
  {
  }

  /** Free style: the configured space (or its percent of the width), no margin. */
  function FreeChain(width: real, info: MeasureInfo): (c: Chain)
    ensures c.boxSpace == ExpectedBoxSpace(info, width) && c.chainMargin == 0.0
    ensures c.merged <==> Mergeable(info) && c.boxSpace == 0.0
  {
    var boxSpace := ExpectedBoxSpace(info, width);
    Chain(boxSpace, 0.0, Mergeable(info) && boxSpace == 0.0)
  }

  /** Spread style: the surplus is shared by the N - 1 inner spaces and the
      two margins; a single box gets two half margins; without surplus the
      margins take half of what merging the borders saves. */
  function SpreadChain(width: real, expectedBoxWidth: real, horizontalPadding: int, info: MeasureInfo): (c: Chain)
    ensures var surplus := Surplus(width, expectedBoxWidth, horizontalPadding, info);
      && (surplus > 0.0 && info.passwordLength > 1 ==>
            c.boxSpace == c.chainMargin == surplus / (info.passwordLength as real + 1.0) && !c.merged)
      && (surplus > 0.0 && info.passwordLength <= 1 ==>
            c.boxSpace == 0.0 && c.chainMargin == surplus / 2.0 && c.merged == Mergeable(info))
      && (surplus <= 0.0 ==>
            var saved := surplus - MergeAdjustment(info);
            c.boxSpace == 0.0 && c.merged == Mergeable(info)
            && c.chainMargin == (if info.passwordLength > 1 && Mergeable(info) && saved > 0.0 then saved / 2.0 else 0.0))
    ensures c.boxSpace >= 0.0 && c.chainMargin >= 0.0
  {
    var n := info.passwordLength as real;
    var surplus := Surplus(width, expectedBoxWidth, horizontalPadding, info);
    if surplus <= 0.0 then
      MergeSavingIsNegatedAdjustment(info);
      var saved := surplus + (2.0 * info.boxBorderSize - info.mergedRectBoxDividerWidth) * (n - 1.0);
      var margin := if info.passwordLength > 1 && Mergeable(info) && saved > 0.0 then saved / 2.0 else 0.0;
      Chain(0.0, margin, Mergeable(info))
    else if info.passwordLength <= 1 then
      Chain(0.0, surplus / 2.0, Mergeable(info))
    else
      var share := surplus / (n + 1.0);
      Chain(share, share, Mergeable(info) && share == 0.0)
  }

  /** SpreadInside style: the surplus goes to the N - 1 inner spaces only;
      merging survives a lack of surplus only if it does not create surplus. */
  function SpreadInsideChain(width: real, expectedBoxWidth: real, horizontalPadding: int, info: MeasureInfo): (c: Chain)
    ensures var surplus := Surplus(width, expectedBoxWidth, horizontalPadding, info);
      && c.chainMargin == 0.0
      && (info.passwordLength <= 1 ==> c.boxSpace == 0.0 && c.merged == Mergeable(info))
      && (info.passwordLength > 1 && surplus > 0.0 ==>
            c.boxSpace == surplus / (info.passwordLength as real - 1.0) && !c.merged)
      && (info.passwordLength > 1 && surplus <= 0.0 ==>
            c.boxSpace == 0.0 && (c.merged <==> Mergeable(info) && surplus - MergeAdjustment(info) <= 0.0))
    ensures c.boxSpace >= 0.0
  {
    var n := info.passwordLength as real;
    if info.passwordLength <= 1 then
      Chain(0.0, 0.0, Mergeable(info))
    else
      var surplus := Surplus(width, expectedBoxWidth, horizontalPadding, info);
      if surplus <= 0.0 then
        MergeSavingIsNegatedAdjustment(info);
        var saved := surplus + (2.0 * info.boxBorderSize - info.mergedRectBoxDividerWidth) * (n - 1.0);
        assert saved == surplus - MergeAdjustment(info);
        Chain(0.0, 0.0, Mergeable(info) && !(saved > 0.0))
      else
        var space := surplus / (n - 1.0);
        Chain(space, 0.0, Mergeable(info) && space == 0.0)
  }

  /** Packet style: boxes touch; the merged flag follows the configuration
      and the surplus (after the merge adjustment) becomes two equal margins. */
  function PacketChain(width: real, expectedBoxWidth: real, horizontalPadding: int, info: MeasureInfo): (c: Chain)
    ensures var surplus := Surplus(width, expectedBoxWidth, horizontalPadding, info)
                           - (if Mergeable(info) then MergeAdjustment(info) else 0.0);
      && c.boxSpace == 0.0 && c.merged == Mergeable(info)
      && c.chainMargin == (if surplus > 0.0 then surplus / 2.0 else 0.0)
    ensures c.chainMargin >= 0.0
  {
    var surplus := Surplus(width, expectedBoxWidth, horizontalPadding, info)
                   - (if Mergeable(info) then MergeAdjustment(info) else 0.0);
    if surplus <= 0.0 then Chain(0.0, 0.0, Mergeable(info))
    else Chain(0.0, surplus / 2.0, Mergeable(info))
  }

  /** Specification of measureBoxChainExactly: the style's resolution. */
  function ChainExactly(width: real, expectedBoxWidth: real, horizontalPadding: int, info: MeasureInfo): (c: Chain)
    // merged borders need merging enabled, rectangular boxes and no space between boxes
    ensures c.merged ==> info.mergeRectBoxEnabled && info.boxType == Rect && c.boxSpace == 0.0
    // outside the Free style the resolved space and margin are never negative
    ensures info.boxChainStyle != Free ==> c.boxSpace >= 0.0 && c.chainMargin >= 0.0
  {
    match info.boxChainStyle
    case Free => FreeChain(width, info)
    case Spread => SpreadChain(width, expectedBoxWidth, horizontalPadding, info)
    case SpreadInside => SpreadInsideChain(width, expectedBoxWidth, horizontalPadding, info)
    case Packet => PacketChain(width, expectedBoxWidth, horizontalPadding, info)
  }

  /** A measurement with the chain fields replaced by a resolved chain. */
  function WithChain(m: Measurement, c: Chain): Measurement
  {
    m.(measureBoxSpace := c.boxSpace, measureBoxChainMargin := c.chainMargin, mergedRectBox := c.merged)
  }

  /** The total width a resolved layout occupies: the sum onMeasure forms. */
  function ContentWidth(info: MeasureInfo, horizontalPadding: int, m: Measurement): real
  {
    var n := info.passwordLength as real;
    horizontalPadding as real
    + m.measureBoxWidth * n
    + info.boxBorderSize * 2.0 * n
    + (if m.mergedRectBox then MergeAdjustment(info) else 0.0)
    + m.measureBoxSpace * (n - 1.0)
    + m.measureBoxChainMargin * 2.0
  }

  /** The height a resolved layout occupies: the other sum onMeasure forms. */
  function ContentHeight(info: MeasureInfo, verticalPadding: int, m: Measurement): real
  {
    verticalPadding as real + m.measureBoxHeight + 2.0 * info.boxBorderSize
  }

  /** Once Spread, SpreadInside or Packet hands out any space or margin, the
      chain with boxes of the expected width fills the given width exactly. */
  lemma ChainFillsWidth(width: real, expectedBoxWidth: real, horizontalPadding: int, info: MeasureInfo, m: Measurement)
    requires info.passwordLength >= 1
    requires info.boxChainStyle != Free
    requires var c := ChainExactly(width, expectedBoxWidth, horizontalPadding, info);
             c.boxSpace > 0.0 || c.chainMargin > 0.0
    ensures ContentWidth(info, horizontalPadding,
                         WithChain(m, ChainExactly(width, expectedBoxWidth, horizontalPadding, info)).(measureBoxWidth := expectedBoxWidth))
            == width
  {
    var c := ChainExactly(width, expectedBoxWidth, horizontalPadding, info);
    ChainAbsorbsSurplus(width, expectedBoxWidth, horizontalPadding, info);
    ContentOfChain(info, horizontalPadding, m, expectedBoxWidth, c);
  }

  /** The content width of a chain of boxes `boxWidth` wide, term by term. */
  lemma ContentOfChain(info: MeasureInfo, horizontalPadding: int, m: Measurement, boxWidth: real, c: Chain)
    ensures var n := info.passwordLength as real;
            ContentWidth(info, horizontalPadding, WithChain(m, c).(measureBoxWidth := boxWidth))
            == horizontalPadding as real + boxWidth * n + info.boxBorderSize * 2.0 * n
               + ((if c.merged then MergeAdjustment(info) else 0.0) + c.boxSpace * (n - 1.0) + c.chainMargin * 2.0)
  {
  }

  /** A chain that hands out space or margin spends exactly the surplus on
      them and on the merge adjustment. */
  lemma ChainAbsorbsSurplus(width: real, expectedBoxWidth: real, horizontalPadding: int, info: MeasureInfo)
    requires info.passwordLength >= 1
    requires info.boxChainStyle != Free
    requires var c := ChainExactly(width, expectedBoxWidth, horizontalPadding, info);
             c.boxSpace > 0.0 || c.chainMargin > 0.0
    ensures var c := ChainExactly(width, expectedBoxWidth, horizontalPadding, info);
            var n := info.passwordLength as real;
            (if c.merged then MergeAdjustment(info) else 0.0) + c.boxSpace * (n - 1.0) + c.chainMargin * 2.0
            == Surplus(width, expectedBoxWidth, horizontalPadding, info)
  {
    var c := ChainExactly(width, expectedBoxWidth, horizontalPadding, info);
    var n := info.passwordLength as real;
    var s := Surplus(width, expectedBoxWidth, horizontalPadding, info);
    match info.boxChainStyle
    case Spread =>
      if s > 0.0 && info.passwordLength > 1 {
        assert c.boxSpace * (n - 1.0) + c.chainMargin * 2.0 == s / (n + 1.0) * (n + 1.0);
      } else if s > 0.0 {
        assert n == 1.0 && MergeAdjustment(info) == 0.0;
      }
    case SpreadInside =>
      assert c.boxSpace * (n - 1.0) == s / (n - 1.0) * (n - 1.0);
    case Packet =>
  }

  /** Configuration sizes and percents are never negative (the attribute loader's domain). */
  predicate NonNegative(info: MeasureInfo)
  {
    && info.boxWidth >= 0.0 && info.boxHeight >= 0.0
    && info.boxWidthPercent >= 0.0 && info.boxHeightRatio >= 0.0
    && info.boxBorderSize >= 0.0 && info.boxSpace >= 0.0 && info.boxSpacePercent >= 0.0
    && info.mergedRectBoxDividerWidth >= 0.0
  }

  /** The width left over at a fixed point of the closed form is the merge
      adjustment the solver assumed plus the style's box spaces. */
  lemma FixedPointSurplus(info: MeasureInfo, horizontalPadding: int, width: real)
    requires NonNegative(info)
    requires width == RequiredWidth(info.boxChainStyle, info, horizontalPadding, width)
    ensures Surplus(width, ExpectedBoxWidth(info, width), horizontalPadding, info)
            == (if SolverMerges(info.boxChainStyle, info) then MergeAdjustment(info) else 0.0)
               + SpaceSlots(info.boxChainStyle, info.passwordLength) * ExpectedBoxSpace(info, width)
  {
    var n := info.passwordLength as real;
    assert ExpectedBoxWidth(info, width) == if info.boxWidthPercent == 0.0 then info.boxWidth else width * info.boxWidthPercent;
    assert ExpectedBoxSpace(info, width) == if info.boxSpacePercent == 0.0 then info.boxSpace else width * info.boxSpacePercent;
    assert ExpectedBoxWidth(info, width) * n == n * ExpectedBoxWidth(info, width);
  }

  lemma RoundTripFree(info: MeasureInfo, horizontalPadding: int, width: real, m: Measurement)
    requires info.boxChainStyle == Free
    requires var space := ExpectedBoxSpace(info, width);
             SolverMerges(Free, info) <==> Mergeable(info) && space == 0.0
    requires Surplus(width, ExpectedBoxWidth(info, width), horizontalPadding, info)
             == (if SolverMerges(Free, info) then MergeAdjustment(info) else 0.0)
                + SpaceSlots(Free, info.passwordLength) * ExpectedBoxSpace(info, width)
    ensures var boxWidth := ExpectedBoxWidth(info, width);
            ContentWidth(info, horizontalPadding,
                         WithChain(m, ChainExactly(width, boxWidth, horizontalPadding, info)).(measureBoxWidth := boxWidth))
            == width
  {
    var c := ChainExactly(width, ExpectedBoxWidth(info, width), horizontalPadding, info);
    assert c.merged == SolverMerges(Free, info);
    assert c.boxSpace * (info.passwordLength as real - 1.0)
           == SpaceSlots(Free, info.passwordLength) * ExpectedBoxSpace(info, width);
  }

  lemma RoundTripPacket(info: MeasureInfo, horizontalPadding: int, width: real, m: Measurement)
    requires info.boxChainStyle == Packet
    requires ExpectedBoxSpace(info, width) >= 0.0
    requires Surplus(width, ExpectedBoxWidth(info, width), horizontalPadding, info)
             == (if SolverMerges(Packet, info) then MergeAdjustment(info) else 0.0)
                + SpaceSlots(Packet, info.passwordLength) * ExpectedBoxSpace(info, width)
    ensures var boxWidth := ExpectedBoxWidth(info, width);
            ContentWidth(info, horizontalPadding,
                         WithChain(m, ChainExactly(width, boxWidth, horizontalPadding, info)).(measureBoxWidth := boxWidth))
            == width
  {
    var c := ChainExactly(width, ExpectedBoxWidth(info, width), horizontalPadding, info);
    assert c.merged == SolverMerges(Packet, info);
    assert c.chainMargin == ExpectedBoxSpace(info, width);
  }

  lemma RoundTripSpread(info: MeasureInfo, horizontalPadding: int, width: real, m: Measurement)
    requires info.boxChainStyle == Spread && info.passwordLength >= 1
    requires var space := ExpectedBoxSpace(info, width);
             space >= 0.0 && (SolverMerges(Spread, info) <==> Mergeable(info) && space == 0.0)
    requires Surplus(width, ExpectedBoxWidth(info, width), horizontalPadding, info)
             == (if SolverMerges(Spread, info) then MergeAdjustment(info) else 0.0)
                + SpaceSlots(Spread, info.passwordLength) * ExpectedBoxSpace(info, width)
    ensures var boxWidth := ExpectedBoxWidth(info, width);
            ContentWidth(info, horizontalPadding,
                         WithChain(m, ChainExactly(width, boxWidth, horizontalPadding, info)).(measureBoxWidth := boxWidth))
            == width
  {
    var boxWidth := ExpectedBoxWidth(info, width);
    var s := Surplus(width, boxWidth, horizontalPadding, info);
    var n := info.passwordLength as real;
    if s > 0.0 && info.passwordLength > 1 {
      var c := ChainExactly(width, boxWidth, horizontalPadding, info);
      assert c.boxSpace * (n - 1.0) + c.chainMargin * 2.0 == s / (n + 1.0) * (n + 1.0);
    }
  }

  lemma RoundTripSpreadInside(info: MeasureInfo, horizontalPadding: int, width: real, m: Measurement)
    requires info.boxChainStyle == SpreadInside && info.passwordLength >= 1
    requires var space := ExpectedBoxSpace(info, width);
             space >= 0.0 && (SolverMerges(SpreadInside, info) <==> Mergeable(info) && space == 0.0)
    requires Surplus(width, ExpectedBoxWidth(info, width), horizontalPadding, info)
             == (if SolverMerges(SpreadInside, info) then MergeAdjustment(info) else 0.0)
                + SpaceSlots(SpreadInside, info.passwordLength) * ExpectedBoxSpace(info, width)
    ensures var boxWidth := ExpectedBoxWidth(info, width);
            ContentWidth(info, horizontalPadding,
                         WithChain(m, ChainExactly(width, boxWidth, horizontalPadding, info)).(measureBoxWidth := boxWidth))
            == width
  {
    var boxWidth := ExpectedBoxWidth(info, width);
    var s := Surplus(width, boxWidth, horizontalPadding, info);
    var n := info.passwordLength as real;
    if s > 0.0 && info.passwordLength > 1 {
      var c := ChainExactly(width, boxWidth, horizontalPadding, info);
      assert c.boxSpace * (n - 1.0) == s / (n - 1.0) * (n - 1.0);
    }
  }

  /** The unconstrained path is consistent: resolving the chain at the width
      ComputeChainWidth chose, with boxes of the width that width implies,
      consumes exactly that width, in every chain style. */
  lemma UnconstrainedRoundTrip(info: MeasureInfo, horizontalPadding: int, m: Measurement)
    requires info.passwordLength >= 1 && NonNegative(info)
    requires Denominator(info.boxChainStyle, info) > 0.0
    requires info.boxSpacePercent == 0.0 || ComputeChainWidth(info, horizontalPadding) > 0.0
    ensures var width := ComputeChainWidth(info, horizontalPadding);
            var boxWidth := ExpectedBoxWidth(info, width);
            ContentWidth(info, horizontalPadding,
                         WithChain(m, ChainExactly(width, boxWidth, horizontalPadding, info)).(measureBoxWidth := boxWidth))
            == width
  {
    var width := ComputeChainWidth(info, horizontalPadding);
    FixedPointSurplus(info, horizontalPadding, width);
    var space := ExpectedBoxSpace(info, width);
    assert space >= 0.0;
    match info.boxChainStyle
    case Free =>
      RoundTripFree(info, horizontalPadding, width, m);
    case Spread =>
      RoundTripSpread(info, horizontalPadding, width, m);
    case SpreadInside =>
      RoundTripSpreadInside(info, horizontalPadding, width, m);
    case Packet =>
      RoundTripPacket(info, horizontalPadding, width, m);
  }

  /** The Free case of measureBoxChainExactly. */
  method MeasureFreeChain(width: real, info: MeasureInfo, result: MeasureResult)
    modifies result
    ensures result.Value() == WithChain(old(result.Value()), FreeChain(width, info))
  {
    var boxSpace := info.boxSpace;
    if info.boxSpacePercent > 0.0 {
      boxSpace := width * info.boxSpacePercent;
    }
    result.measureBoxSpace := boxSpace;
    result.measureBoxChainMargin := 0.0;
    result.mergedRectBox := info.mergeRectBoxEnabled && info.boxType == Rect && result.measureBoxSpace == 0.0;
  }

  /** The Spread case of measureBoxChainExactly. */
  method MeasureSpreadChain(width: real, expectedBoxWidth: real, horizontalPadding: int,
                            info: MeasureInfo, result: MeasureResult)
    modifies result
    ensures result.Value() == WithChain(old(result.Value()), SpreadChain(width, expectedBoxWidth, horizontalPadding, info))
  {
    var n := info.passwordLength as real;
    var surplusWidth := width - horizontalPadding as real - expectedBoxWidth * n - info.boxBorderSize * 2.0 * n;
    assert surplusWidth == Surplus(width, expectedBoxWidth, horizontalPadding, info);
    if surplusWidth <= 0.0 {
      result.measureBoxSpace, result.measureBoxChainMargin := 0.0, 0.0;
      if info.passwordLength > 1 {
        var mergeRectBox := info.mergeRectBoxEnabled && info.boxType == Rect;
        if mergeRectBox {
          MergeSavingIsNegatedAdjustment(info);
          surplusWidth := surplusWidth + (2.0 * info.boxBorderSize - info.mergedRectBoxDividerWidth) * (n - 1.0);
          if surplusWidth > 0.0 {
            result.measureBoxChainMargin := surplusWidth / 2.0;
          }
        }
      }
    } else {
      if info.passwordLength <= 1 {
        result.measureBoxSpace := 0.0;
        result.measureBoxChainMargin := surplusWidth / 2.0;
      } else {
        var share := surplusWidth / (n + 1.0);
        result.measureBoxSpace, result.measureBoxChainMargin := share, share;
      }
    }
    result.mergedRectBox := info.mergeRectBoxEnabled && info.boxType == Rect && result.measureBoxSpace == 0.0;
  }

  /** The SpreadInside case of measureBoxChainExactly. */
  method MeasureSpreadInsideChain(width: real, expectedBoxWidth: real, horizontalPadding: int,
                                  info: MeasureInfo, result: MeasureResult)
    modifies result
    ensures result.Value() == WithChain(old(result.Value()), SpreadInsideChain(width, expectedBoxWidth, horizontalPadding, info))
  {
    var n := info.passwordLength as real;
    if info.passwordLength <= 1 {
      result.measureBoxSpace, result.measureBoxChainMargin := 0.0, 0.0;
      result.mergedRectBox := info.mergeRectBoxEnabled && info.boxType == Rect;
    } else {
      var surplusWidth := width - horizontalPadding as real - expectedBoxWidth * n - info.boxBorderSize * 2.0 * n;
      if surplusWidth <= 0.0 {
        result.measureBoxSpace, result.measureBoxChainMargin := 0.0, 0.0;
        var mergeRectBox := info.mergeRectBoxEnabled && info.boxType == Rect;
        if mergeRectBox {
          surplusWidth := surplusWidth + (2.0 * info.boxBorderSize - info.mergedRectBoxDividerWidth) * (n - 1.0);
          if surplusWidth > 0.0 {
            mergeRectBox := false;
          }
        }
        result.mergedRectBox := mergeRectBox;
      } else {
        result.measureBoxSpace := surplusWidth / (n - 1.0);
        result.measureBoxChainMargin := 0.0;
        result.mergedRectBox := info.mergeRectBoxEnabled && info.boxType == Rect && result.measureBoxSpace == 0.0;
      }
    }
  }

  /** The Packet case of measureBoxChainExactly. */
  method MeasurePacketChain(width: real, expectedBoxWidth: real, horizontalPadding: int,
                            info: MeasureInfo, result: MeasureResult)
    modifies result
    ensures result.Value() == WithChain(old(result.Value()), PacketChain(width, expectedBoxWidth, horizontalPadding, info))
  {
    var n := info.passwordLength as real;
    var mergeRectBox := info.mergeRectBoxEnabled && info.boxType == Rect;
    result.mergedRectBox := mergeRectBox;
    var surplusWidth := width - horizontalPadding as real - expectedBoxWidth * n - info.boxBorderSize * 2.0 * n
                        - (if mergeRectBox then (info.mergedRectBoxDividerWidth - 2.0 * info.boxBorderSize) * (n - 1.0) else 0.0);
    assert surplusWidth == Surplus(width, expectedBoxWidth, horizontalPadding, info)
                           - (if Mergeable(info) then MergeAdjustment(info) else 0.0);
    if surplusWidth <= 0.0 {
      result.measureBoxSpace, result.measureBoxChainMargin := 0.0, 0.0;
    } else {
      result.measureBoxSpace := 0.0;
      result.measureBoxChainMargin := surplusWidth / 2.0;
    }
  }

  /** measureBoxChainExactly: writes the three chain fields of `result` as
      the configured chain style resolves them, and leaves every other field alone. */
  method MeasureBoxChainExactly(width: real, expectedBoxWidth: real, horizontalPadding: int,
                                info: MeasureInfo, result: MeasureResult)
    modifies result
    ensures result.Value() == WithChain(old(result.Value()), ChainExactly(width, expectedBoxWidth, horizontalPadding, info))
  {
    match info.boxChainStyle {
      case Free => MeasureFreeChain(width, info, result);
      case Spread => MeasureSpreadChain(width, expectedBoxWidth, horizontalPadding, info, result);
      case SpreadInside => MeasureSpreadInsideChain(width, expectedBoxWidth, horizontalPadding, info, result);
      case Packet => MeasurePacketChain(width, expectedBoxWidth, horizontalPadding, info, result);
    }
  }
}
