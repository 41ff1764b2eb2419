/** Cell geometry: where drawBox places each cell of the chain, in the
    coordinates of the translated canvas (origin at the chain's first border),
    the stroke frame of a merged chain, the corner radii of a merged cell's
    background, and the inner radius of a stroked box's background. */
module BoxGeometry {
  import opened Config

  /** A RectF value. */
  datatype RectF = RectF(left: real, top: real, right: real, bottom: real)
  {
    function Width(): real { right - left }
    function Height(): real { bottom - top }
    function CenterX(): real { (left + right) / 2.0 }
  }

  /** The rect shrunk by `d` on every side. */
  function Inset(r: RectF, d: real): (s: RectF)
    ensures s.Width() == r.Width() - 2.0 * d && s.Height() == r.Height() - 2.0 * d
    ensures s.CenterX() == r.CenterX()
  {
    RectF(r.left + d, r.top + d, r.right - d, r.bottom - d)
  }

  /** The distance from one independent cell's left edge to the next one's:
      the box, its two borders and the space. */
  function Pitch(boxWidth: real, boxSpace: real, boxBorderSize: real): real
  {
    boxWidth + boxBorderSize * 2.0 + boxSpace
  }

  /** The rect an independent (rect or oval) cell's border is stroked on:
      centred on the border line, hence half a border in from the cell's outer edge. */
  function StrokeRect(index: nat, boxWidth: real, boxHeight: real, boxSpace: real, boxBorderSize: real): (r: RectF)
    // half a border wider than the box on every side
    ensures r.Width() == boxWidth + boxBorderSize && r.Height() == boxHeight + boxBorderSize
    ensures r.top == boxBorderSize * 0.5
  {
    var left := boxWidth * index as real + boxBorderSize * 2.0 * index as real + boxSpace * index as real + boxBorderSize * 0.5;
    var top := boxBorderSize * 0.5;
    RectF(left, top, left + boxWidth + boxBorderSize, top + boxHeight + boxBorderSize)
  }

  /** The rect recorded for an independent cell: the stroke rect itself when
      there is no border, the stroke rect shrunk by half a border otherwise
      (the area inside the border). */
  function IndependentCell(index: nat, boxWidth: real, boxHeight: real, boxSpace: real, boxBorderSize: real): (r: RectF)
    // box-sized and one border below the top, with or without a border
    ensures r.Width() == boxWidth && r.Height() == boxHeight && r.top == boxBorderSize
  {
    var stroke := StrokeRect(index, boxWidth, boxHeight, boxSpace, boxBorderSize);
    if boxBorderSize == 0.0 then stroke else Inset(stroke, boxBorderSize * 0.5)
  }

  /** Either way, cell i is the box-sized area one border in from the chain's
      edge and i pitches along. */
  lemma IndependentCellAt(index: nat, boxWidth: real, boxHeight: real, boxSpace: real, boxBorderSize: real)
    ensures var x := index as real * Pitch(boxWidth, boxSpace, boxBorderSize) + boxBorderSize;
            IndependentCell(index, boxWidth, boxHeight, boxSpace, boxBorderSize)
            == RectF(x, boxBorderSize, x + boxWidth, boxBorderSize + boxHeight)
  {
    var i := index as real;
    assert boxWidth * i + boxBorderSize * 2.0 * i + boxSpace * i
           == i * Pitch(boxWidth, boxSpace, boxBorderSize);
  }

  /** Independent cells come in order and never overlap when sizes are not
      negative: a later cell starts no earlier than an earlier one ends plus
      the two borders and the space between them. */
  lemma IndependentCellsOrdered(i: nat, j: nat, boxWidth: real, boxHeight: real, boxSpace: real, boxBorderSize: real)
    requires i < j
    requires boxWidth >= 0.0 && boxSpace >= 0.0 && boxBorderSize >= 0.0
    ensures IndependentCell(i, boxWidth, boxHeight, boxSpace, boxBorderSize).right
            + 2.0 * boxBorderSize + boxSpace
            <= IndependentCell(j, boxWidth, boxHeight, boxSpace, boxBorderSize).left
  {
    IndependentCellAt(i, boxWidth, boxHeight, boxSpace, boxBorderSize);
    IndependentCellAt(j, boxWidth, boxHeight, boxSpace, boxBorderSize);
    var p := Pitch(boxWidth, boxSpace, boxBorderSize);
    var gap := j as real - i as real - 1.0;
    assert gap >= 0.0 && p >= 0.0;
    assert gap * p >= 0.0;
    assert j as real * p == i as real * p + p + gap * p;
  }

  /** The rect recorded for cell i of a merged chain: cell 0 sits one border
      in, and each later cell starts one divider after the previous one ends. */
  function MergedCell(index: nat, boxWidth: real, boxHeight: real, boxBorderSize: real, dividerWidth: real): (r: RectF)
    // box-sized and one border below the top, like an independent cell
    ensures r.Width() == boxWidth && r.Height() == boxHeight && r.top == boxBorderSize
  {
    var left := if index == 0 then boxBorderSize
                else MergedCell(index - 1, boxWidth, boxHeight, boxBorderSize, dividerWidth).right + dividerWidth;
    RectF(left, boxBorderSize, left + boxWidth, boxBorderSize + boxHeight)
  }

  /** Merged cell i in closed form: i boxes and i dividers after the first border. */
  lemma {:induction false} MergedCellAt(index: nat, boxWidth: real, boxHeight: real, boxBorderSize: real, dividerWidth: real)
    ensures var x := boxBorderSize + index as real * (boxWidth + dividerWidth);
            MergedCell(index, boxWidth, boxHeight, boxBorderSize, dividerWidth)
            == RectF(x, boxBorderSize, x + boxWidth, boxBorderSize + boxHeight)
  {
    if index > 0 {
      var previous := MergedCell(index - 1, boxWidth, boxHeight, boxBorderSize, dividerWidth);
      MergedCellAt(index - 1, boxWidth, boxHeight, boxBorderSize, dividerWidth);
      var left := previous.right + dividerWidth;
      assert left == boxBorderSize + index as real * (boxWidth + dividerWidth) by {
        assert (index - 1) as real * (boxWidth + dividerWidth) + boxWidth + dividerWidth
               == index as real * (boxWidth + dividerWidth);
      }
      assert MergedCell(index, boxWidth, boxHeight, boxBorderSize, dividerWidth)
             == RectF(left, boxBorderSize, left + boxWidth, boxBorderSize + boxHeight);
    }
  }

  /** Merged cells come in order and never overlap when the box and the
      divider are not negative: a later cell starts at least one divider
      after an earlier one ends. */
  lemma MergedCellsOrdered(i: nat, j: nat, boxWidth: real, boxHeight: real, boxBorderSize: real, dividerWidth: real)
    requires i < j
    requires boxWidth >= 0.0 && dividerWidth >= 0.0
    ensures MergedCell(i, boxWidth, boxHeight, boxBorderSize, dividerWidth).right + dividerWidth
            <= MergedCell(j, boxWidth, boxHeight, boxBorderSize, dividerWidth).left
  {
    MergedCellAt(i, boxWidth, boxHeight, boxBorderSize, dividerWidth);
    MergedCellAt(j, boxWidth, boxHeight, boxBorderSize, dividerWidth);
    var p := boxWidth + dividerWidth;
    var gap := j as real - i as real - 1.0;
    assert gap >= 0.0 && p >= 0.0;
    assert gap * p >= 0.0;
    assert j as real * p == i as real * p + p + gap * p;
  }

  /** A divider exactly two borders wide puts merged cells where independent
      cells with no space would be. */
  lemma MergedMatchesIndependent(index: nat, boxWidth: real, boxHeight: real, boxBorderSize: real)
    ensures MergedCell(index, boxWidth, boxHeight, boxBorderSize, 2.0 * boxBorderSize)
            == IndependentCell(index, boxWidth, boxHeight, 0.0, boxBorderSize)
  {
    MergedCellAt(index, boxWidth, boxHeight, boxBorderSize, 2.0 * boxBorderSize);
    IndependentCellAt(index, boxWidth, boxHeight, 0.0, boxBorderSize);
  }

  /** The rect recorded for an underline cell: the whole cell including both
      borders, from one border below the top; the underline itself is drawn
      half a border below the cell's bottom. */
  function UnderlineCell(index: nat, boxWidth: real, boxHeight: real, boxSpace: real, boxBorderSize: real): (r: RectF)
    // the box and both its borders wide, the box high, one border below the top
    ensures r.Width() == boxWidth + 2.0 * boxBorderSize && r.Height() == boxHeight && r.top == boxBorderSize
  {
    var startX := boxWidth * index as real + boxBorderSize * 2.0 * index as real + boxSpace * index as real;
    RectF(startX, boxBorderSize, startX + boxWidth + boxBorderSize * 2.0, boxBorderSize + boxHeight)
  }

  /** An underline cell spans the independent cell's box plus its two borders. */
  lemma UnderlineCellSpansBorders(index: nat, boxWidth: real, boxHeight: real, boxSpace: real, boxBorderSize: real)
    ensures var u := UnderlineCell(index, boxWidth, boxHeight, boxSpace, boxBorderSize);
            var c := IndependentCell(index, boxWidth, boxHeight, boxSpace, boxBorderSize);
            u == RectF(c.left - boxBorderSize, c.top, c.right + boxBorderSize, c.bottom)
  {
    IndependentCellAt(index, boxWidth, boxHeight, boxSpace, boxBorderSize);
    var i := index as real;
    assert boxWidth * i + boxBorderSize * 2.0 * i + boxSpace * i
           == i * Pitch(boxWidth, boxSpace, boxBorderSize);
  }

  /** The extent of a row of n merged cells: from one border in to the last
      cell's right edge, n boxes and n - 1 dividers. */
  lemma MergedRowExtent(n: nat, boxWidth: real, boxHeight: real, boxBorderSize: real, dividerWidth: real)
    requires n >= 1
    ensures MergedCell(0, boxWidth, boxHeight, boxBorderSize, dividerWidth).left == boxBorderSize
    ensures MergedCell(n - 1, boxWidth, boxHeight, boxBorderSize, dividerWidth).right + boxBorderSize
            == boxWidth * n as real + boxBorderSize * 2.0 * n as real
               + (dividerWidth - 2.0 * boxBorderSize) * (n as real - 1.0)
  {
    MergedCellAt(n - 1, boxWidth, boxHeight, boxBorderSize, dividerWidth);
    var nr := n as real;
    assert boxWidth * nr + dividerWidth * (nr - 1.0)
           == (nr - 1.0) * (boxWidth + dividerWidth) + boxWidth;
  }

  /** The extent of a row of n independent or underline cells: n boxes with
      their two borders each and n - 1 spaces, the last independent cell's
      right border included. */
  lemma IndependentRowExtent(n: nat, boxWidth: real, boxHeight: real, boxSpace: real, boxBorderSize: real)
    requires n >= 1
    ensures var extent := boxWidth * n as real + boxBorderSize * 2.0 * n as real + boxSpace * (n as real - 1.0);
            && IndependentCell(0, boxWidth, boxHeight, boxSpace, boxBorderSize).left == boxBorderSize
            && IndependentCell(n - 1, boxWidth, boxHeight, boxSpace, boxBorderSize).right + boxBorderSize == extent
            && UnderlineCell(0, boxWidth, boxHeight, boxSpace, boxBorderSize).left == 0.0
            && UnderlineCell(n - 1, boxWidth, boxHeight, boxSpace, boxBorderSize).right == extent
  {
    IndependentCellAt(n - 1, boxWidth, boxHeight, boxSpace, boxBorderSize);
    IndependentCellAt(0, boxWidth, boxHeight, boxSpace, boxBorderSize);
    UnderlineCellSpansBorders(n - 1, boxWidth, boxHeight, boxSpace, boxBorderSize);
    UnderlineCellSpansBorders(0, boxWidth, boxHeight, boxSpace, boxBorderSize);
    var nr := n as real;
    assert boxWidth * nr + boxBorderSize * 2.0 * nr + boxSpace * (nr - 1.0)
           == (nr - 1.0) * Pitch(boxWidth, boxSpace, boxBorderSize) + boxBorderSize + boxWidth + boxBorderSize;
  }

  /** Underline cells come in order and never overlap when sizes are not
      negative: a later cell starts at least one space after an earlier one ends. */
  lemma UnderlineCellsOrdered(i: nat, j: nat, boxWidth: real, boxHeight: real, boxSpace: real, boxBorderSize: real)
    requires i < j
    requires boxWidth >= 0.0 && boxSpace >= 0.0 && boxBorderSize >= 0.0
    ensures UnderlineCell(i, boxWidth, boxHeight, boxSpace, boxBorderSize).right + boxSpace
            <= UnderlineCell(j, boxWidth, boxHeight, boxSpace, boxBorderSize).left
  {
    IndependentCellsOrdered(i, j, boxWidth, boxHeight, boxSpace, boxBorderSize);
    UnderlineCellSpansBorders(i, boxWidth, boxHeight, boxSpace, boxBorderSize);
    UnderlineCellSpansBorders(j, boxWidth, boxHeight, boxSpace, boxBorderSize);
  }

  /** The rect the merged chain's outer border is stroked on, from the
      content sizes of the record drawn. */
  function MergedFrame(contentWidth: real, contentHeight: real, chainMargin: real,
                       horizontalPadding: int, verticalPadding: int, boxBorderSize: real): RectF
  {
    RectF(boxBorderSize * 0.5, boxBorderSize * 0.5,
          contentWidth - chainMargin * 2.0 - horizontalPadding as real - boxBorderSize * 0.5,
          contentHeight - verticalPadding as real - boxBorderSize * 0.5)
  }

  /** When the content sizes are those of the merged chain being drawn, the
      frame's stroke line runs half a border outside the last cell's right
      edge and the cells' bottom edge: the frame encloses the cells exactly. */
  lemma MergedFrameEnclosesCells(n: nat, boxWidth: real, boxHeight: real, boxBorderSize: real, dividerWidth: real,
                                 chainMargin: real, horizontalPadding: int, verticalPadding: int)
    requires n >= 1
    ensures var nr := n as real;
            var contentWidth := horizontalPadding as real + boxWidth * nr + boxBorderSize * 2.0 * nr
                                + (dividerWidth - 2.0 * boxBorderSize) * (nr - 1.0) + chainMargin * 2.0;
            var contentHeight := verticalPadding as real + boxHeight + 2.0 * boxBorderSize;
            var frame := MergedFrame(contentWidth, contentHeight, chainMargin, horizontalPadding, verticalPadding, boxBorderSize);
            var last := MergedCell(n - 1, boxWidth, boxHeight, boxBorderSize, dividerWidth);
            var first := MergedCell(0, boxWidth, boxHeight, boxBorderSize, dividerWidth);
            && frame.right == last.right + boxBorderSize * 0.5
            && frame.bottom == last.bottom + boxBorderSize * 0.5
            && frame.left == first.left - boxBorderSize * 0.5
            && frame.top == first.top - boxBorderSize * 0.5
  {
    MergedCellAt(n - 1, boxWidth, boxHeight, boxBorderSize, dividerWidth);
    var nr := n as real;
    assert boxWidth * nr + dividerWidth * (nr - 1.0)
           == boxWidth + (nr - 1.0) * (boxWidth + dividerWidth);
  }

  /** The eight corner radii (x and y of top-left, top-right, bottom-right,
      bottom-left) of a merged cell's background: the first cell rounds its
      left corners, the last its right ones, and inner cells none. */
  function CornerRadii(index: nat, passwordLength: nat, radius: real): (radii: seq<real>)
    ensures |radii| == 8
    ensures forall k :: 0 <= k < 8 ==> radii[k] == 0.0 || radii[k] == radius
    // seams between cells are never rounded
    ensures 0 < index ==> radii[0] == radii[1] == radii[6] == radii[7] == 0.0
    ensures index + 1 < passwordLength ==> radii[2] == radii[3] == radii[4] == radii[5] == 0.0
    // the chain's outer corners are rounded
    ensures index == 0 ==> radii[0] == radii[1] == radii[6] == radii[7] == radius
    ensures 0 < index && index + 1 == passwordLength ==> radii[2] == radii[3] == radii[4] == radii[5] == radius
  {
    if index == 0 then [radius, radius, 0.0, 0.0, 0.0, 0.0, radius, radius]
    else if index == passwordLength - 1 then [0.0, 0.0, radius, radius, radius, radius, 0.0, 0.0]
    else [0.0, 0.0, 0.0, 0.0, 0.0, 0.0, 0.0, 0.0]
  }

  /** A chain of a single merged cell gets only its left corners rounded:
      the first-cell case is tested before the last-cell case. */
  lemma SingleMergedCellRoundsLeftOnly(radius: real)
    requires radius != 0.0
    ensures CornerRadii(0, 1, radius)[2] == 0.0 && CornerRadii(0, 1, radius)[4] == 0.0
    ensures CornerRadii(0, 1, radius)[0] == radius && CornerRadii(0, 1, radius)[6] == radius
  {
  }

  /** getBoxBackgroundRadius: the corner radius of the background inside a
      stroked border of `rectBoxRadius`, shrunk by how far the border
      (measured in density-independent pixels) reaches in. */
  function BoxBackgroundRadius(rectBoxRadius: real, boxBorderSize: real, density: real): (r: real)
    requires density > 0.0
    ensures rectBoxRadius == 0.0 || boxBorderSize == 0.0 ==> r == 0.0
    ensures rectBoxRadius != 0.0 && boxBorderSize != 0.0 ==> r <= rectBoxRadius
    ensures rectBoxRadius != 0.0 && boxBorderSize != 0.0 && boxBorderSize <= density * 2.0 / 3.0 ==> r == rectBoxRadius
    ensures rectBoxRadius != 0.0 && boxBorderSize > density * 2.0 / 3.0
            ==> r == rectBoxRadius - 1.5 * boxBorderSize / density + 1.0
  {
    if rectBoxRadius == 0.0 then 0.0
    else if boxBorderSize == 0.0 then 0.0
    else
      var radius := 1.5 * (boxBorderSize / density - 1.0) + 0.5;
      BorderReach(boxBorderSize, density);
      rectBoxRadius - Max(0.0, radius)
  }

  /** The border, in density-independent pixels, reaches past two thirds
      exactly when it is thicker than two thirds of the density. */
  lemma BorderReach(boxBorderSize: real, density: real)
    requires density > 0.0
    ensures boxBorderSize <= density * 2.0 / 3.0 <==> boxBorderSize / density <= 2.0 / 3.0
    ensures 1.5 * boxBorderSize / density == 1.5 * (boxBorderSize / density)
  {
    var q := boxBorderSize / density;
    assert boxBorderSize == q * density;
    assert (density * 2.0 / 3.0) / density == 2.0 / 3.0;
    DivisionMonotone(boxBorderSize, density * 2.0 / 3.0, density);
  }

  lemma DivisionMonotone(a: real, b: real, d: real)
    requires d > 0.0
    ensures a <= b <==> a / d <= b / d
  {
    assert a == (a / d) * d && b == (b / d) * d;
    if a / d <= b / d {
      assert (a / d) * d <= (b / d) * d;
    }
  }

  /** A thicker border never leaves a larger background radius. */
  lemma BoxBackgroundRadiusMonotone(rectBoxRadius: real, b1: real, b2: real, density: real)
    requires density > 0.0 && rectBoxRadius != 0.0
    requires 0.0 < b1 <= b2
    ensures BoxBackgroundRadius(rectBoxRadius, b2, density) <= BoxBackgroundRadius(rectBoxRadius, b1, density)
  {
    DivisionMonotone(b1, b2, density);
  }
}
