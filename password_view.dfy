/** The PasswordView widget itself: the two MeasureResult records it keeps,
    onMeasure (clear, measure, the content sums, copy), the drawBox loops that
    grow and overwrite the cell list in place, the corner radii a merged
    cell's background is drawn with, the cursor gate and its blink toggle,
    and the listener calls afterTextChanged makes. */
module PasswordWidget {
  import opened Config
  import opened Metrics
  import opened ChainHelper
  import opened Measurers
  import opened BoxGeometry

  // ------------------------------------------------------------------ onMeasure

  /** What onMeasure leaves in the measured record, given the two records
      before the pass: without a measurer both are cleared; otherwise the
      cleared working record is measured, its content sizes are formed from
      the PREVIOUS measured record, and the result is copied over. */
  function Remeasured(measurer: Option<Measurer>, info: MeasureInfo, host: Host,
                      measuring: Measurement, measured: Measurement): (r: Measurement)
    requires measurer.Some? ==> WidthComputable(measurer.value, info, host.widthSpec)
    ensures measurer.None? ==> r == Cleared(measured)
    ensures measurer.Some? ==> r.measureContentWidth == ContentWidth(info, host.HorizontalPadding(), measured)
    ensures measurer.Some? ==> r.measureContentHeight == ContentHeight(info, host.VerticalPadding(), measured)
  {
    match measurer
    case None => Cleared(measured)
    case Some(kind) =>
      MeasurePass(kind, info, host, Cleared(measuring)).(
        measureContentWidth := ContentWidth(info, host.HorizontalPadding(), measured),
        measureContentHeight := ContentHeight(info, host.VerticalPadding(), measured))
  }

  /** The 4-box Fill view with 40-wide boxes, border 2 and no space, under
      an exact width of 400, and its width pass from a cleared record. */
  function StaleExampleInfo(): MeasureInfo
  {
    MeasureInfo(4, Rect, Free, 40.0, 0.0, 0.0, 0.0, 2.0, 0.0, 0.0, false, 2.0)
  }

  function StaleExampleHost(): Host
  {
    Host(MeasureSpec(Exactly, 400), MeasureSpec(Exactly, 100), 0, 0, 0, 0, 0, 0)
  }

  lemma StaleExampleWidthPass(m: Measurement)
    ensures var w := FillWidth(StaleExampleInfo(), StaleExampleHost(), m);
            w.measureBoxWidth == 40.0 && w.measureBoxSpace == 0.0 && w.measureBoxChainMargin == 0.0 && !w.mergedRectBox
  {
    var info := StaleExampleInfo();
    assert FillWidth(info, StaleExampleHost(), m) == ResolvedWidth(info, 0, 400.0, m);
    assert ChainExactly(400.0, 40.0, 0, info) == Chain(0.0, 0.0, false);
  }

  /** Apart from the content sizes, onMeasure publishes what the width
      pass chose for the boxes and the chain. */
  lemma RemeasuredKeepsWidthPass(kind: Measurer, info: MeasureInfo, host: Host, measuring: Measurement, measured: Measurement)
    requires WidthComputable(kind, info, host.widthSpec)
    ensures var r := Remeasured(Some(kind), info, host, measuring, measured);
            var w := match kind
                     case Fill => FillWidth(info, host, Cleared(measuring))
                     case Bound => BoundWidth(info, host, Cleared(measuring))
                     case FreeMeasurer => FreeWidth(info, host, Cleared(measuring));
            && r.measureWidth == w.measureWidth && r.measureBoxWidth == w.measureBoxWidth
            && r.measureBoxSpace == w.measureBoxSpace && r.measureBoxChainMargin == w.measureBoxChainMargin
            && r.mergedRectBox == w.mergedRectBox
  {
  }

  /** Because the content sums read the previous pass, the first pass over
      a record holding no chain yet (as a fresh one does) reports the content
      of an empty chain: here 16 (the eight borders) for a layout whose boxes
      and borders occupy 176. */
  lemma FirstPassContentIsStale(measuring: Measurement, measured: Measurement)
    requires measured.measureBoxWidth == 0.0 && measured.measureBoxSpace == 0.0
    requires measured.measureBoxChainMargin == 0.0 && !measured.mergedRectBox
    ensures var r := Remeasured(Some(Fill), StaleExampleInfo(), StaleExampleHost(), measuring, measured);
            r.measureContentWidth == 16.0 && ContentWidth(StaleExampleInfo(), 0, r) == 176.0
  {
    var info, host := StaleExampleInfo(), StaleExampleHost();
    var w := FillWidth(info, host, Cleared(measuring));
    StaleExampleWidthPass(Cleared(measuring));
    var r := Remeasured(Some(Fill), info, host, measuring, measured);
    RemeasuredKeepsWidthPass(Fill, info, host, measuring, measured);
    StaleExampleContent(info, measured, 0.0, 16.0);
    StaleExampleContent(info, w, 40.0, 176.0);
    ContentWidthReadsChainFields(info, 0, r, w);
  }

  /** The content width of the example's unmerged, spaceless chain of
      boxes `boxWidth` wide: the four boxes and their eight borders. */
  lemma StaleExampleContent(info: MeasureInfo, m: Measurement, boxWidth: real, content: real)
    requires info == StaleExampleInfo()
    requires m.measureBoxWidth == boxWidth && m.measureBoxSpace == 0.0
    requires m.measureBoxChainMargin == 0.0 && !m.mergedRectBox
    requires content == 4.0 * boxWidth + 16.0
    ensures ContentWidth(info, 0, m) == content
  {
  }

  /** onMeasure settles in two passes: after a second pass with the same
      constraints, the content sizes are those of the layout itself, and a
      third pass changes nothing. */
  lemma OnMeasureSettles(kind: Measurer, info: MeasureInfo, host: Host, measuring: Measurement, measured: Measurement)
    requires WidthComputable(kind, info, host.widthSpec)
    ensures var first := Remeasured(Some(kind), info, host, measuring, measured);
            var second := Remeasured(Some(kind), info, host, first, first);
            && second.measureContentWidth == ContentWidth(info, host.HorizontalPadding(), second)
            && second.measureContentHeight == ContentHeight(info, host.VerticalPadding(), second)
            && Remeasured(Some(kind), info, host, second, second) == second
  {
    var hp, vp := host.HorizontalPadding(), host.VerticalPadding();
    var first := Remeasured(Some(kind), info, host, measuring, measured);
    var second := Remeasured(Some(kind), info, host, first, first);
    var third := Remeasured(Some(kind), info, host, second, second);
    StaleHeightIsOverwritten(kind, info, host, measuring, first);
    StaleHeightIsOverwritten(kind, info, host, first, second);
    var pass := MeasurePass(kind, info, host, Cleared(measuring));
    assert second == pass.(measureContentWidth := ContentWidth(info, hp, first),
                           measureContentHeight := ContentHeight(info, vp, first));
    ContentWidthReadsChainFields(info, hp, first, second);
    assert third == pass.(measureContentWidth := ContentWidth(info, hp, second),
                          measureContentHeight := ContentHeight(info, vp, second));
  }

  /** With the width open and the configuration in range, the settled
      content width is the width the view reports. */
  lemma SettledContentMatchesUnspecifiedWidth(kind: Measurer, info: MeasureInfo, host: Host, m: Measurement)
    requires host.widthSpec.mode == Unspecified
    requires info.passwordLength >= 1 && NonNegative(info)
    requires Denominator(info.boxChainStyle, info) > 0.0
    requires info.boxSpacePercent == 0.0 || ComputeChainWidth(info, host.HorizontalPadding()) > 0.0
    ensures var first := Remeasured(Some(kind), info, host, m, m);
            var second := Remeasured(Some(kind), info, host, first, first);
            second.measureContentWidth == second.measureWidth
  {
    var first := Remeasured(Some(kind), info, host, m, m);
    var second := Remeasured(Some(kind), info, host, first, first);
    OnMeasureSettles(kind, info, host, m, m);
    UnspecifiedWidthConsistent(kind, info, host, Cleared(first));
    ContentWidthReadsChainFields(info, host.HorizontalPadding(), second, MeasurePass(kind, info, host, Cleared(first)));
  }

  // ------------------------------------------------------------------- drawBox

  /** The rect drawBox records for cell `index`, by box type and merge flag. */
  function CellAt(info: MeasureInfo, m: Measurement, index: nat): RectF
  {
    match info.boxType
    case Rect =>
      if m.mergedRectBox then MergedCell(index, m.measureBoxWidth, m.measureBoxHeight, info.boxBorderSize, info.mergedRectBoxDividerWidth)
      else IndependentCell(index, m.measureBoxWidth, m.measureBoxHeight, m.measureBoxSpace, info.boxBorderSize)
    case Oval => IndependentCell(index, m.measureBoxWidth, m.measureBoxHeight, m.measureBoxSpace, info.boxBorderSize)
    case Underline => UnderlineCell(index, m.measureBoxWidth, m.measureBoxHeight, m.measureBoxSpace, info.boxBorderSize)
  }

  /** The N rects one drawBox call records. */
  function CellRow(info: MeasureInfo, m: Measurement): (row: seq<RectF>)
    ensures |row| == info.passwordLength
    ensures forall i :: 0 <= i < |row| ==> row[i] == CellAt(info, m, i)
  {
    seq(info.passwordLength, (i: int) requires 0 <= i => CellAt(info, m, i))
  }

  /** The cell list after `cells` were written over its first entries: reused
      entries are overwritten in order, missing ones appended, and entries
      past the new cells kept. */
  function Overlay(previous: seq<RectF>, cells: seq<RectF>): (r: seq<RectF>)
    ensures |r| == if |previous| > |cells| then |previous| else |cells|
    ensures r[..|cells|] == cells
    ensures |cells| < |previous| ==> r[|cells|..] == previous[|cells|..]
  {
    if |previous| > |cells| then cells + previous[|cells|..] else cells
  }

  /** Writing one more cell extends the overlay by that cell. */
  lemma OverlayStep(previous: seq<RectF>, cells: seq<RectF>, cell: RectF)
    ensures var o := Overlay(previous, cells);
            Overlay(previous, cells + [cell])
            == if |cells| < |o| then o[|cells| := cell] else o + [cell]
  {
    var o := Overlay(previous, cells);
    var k := |cells|;
    if k < |o| {
      assert o == cells + previous[k..];
      assert o[k := cell] == (cells + [cell]) + previous[k + 1..];
    }
  }

  /** Writing cell `index` of a row over the overlay of the cells before it
      gives the overlay of one more cell of the row. */
  lemma OverlayExtends(previous: seq<RectF>, row: seq<RectF>, index: nat)
    requires index < |row|
    ensures var o := Overlay(previous, row[..index]);
            Overlay(previous, row[..index + 1])
            == if index < |o| then o[index := row[index]] else o + [row[index]]
  {
    assert row[..index + 1] == row[..index] + [row[index]];
    OverlayStep(previous, row[..index], row[index]);
  }

  /** Merged cells are placed as the closed form says, and every seam is one divider wide. */
  lemma MergedRowSeams(info: MeasureInfo, m: Measurement, index: nat)
    requires info.boxType == Rect && m.mergedRectBox
    requires index + 1 < info.passwordLength
    ensures var row := CellRow(info, m);
            && row[index + 1].left == row[index].right + info.mergedRectBoxDividerWidth
            && row[index].Width() == m.measureBoxWidth
            && row[index].top == info.boxBorderSize
            && row[0].left == info.boxBorderSize
  {
  }

  /** The cells drawBox records come left to right and never overlap, for
      every box type, as long as the sizes are not negative. */
  lemma CellRowOrdered(info: MeasureInfo, m: Measurement, i: nat, j: nat)
    requires i < j < info.passwordLength
    requires m.measureBoxWidth >= 0.0 && m.measureBoxSpace >= 0.0
    requires info.boxBorderSize >= 0.0 && info.mergedRectBoxDividerWidth >= 0.0
    ensures var row := CellRow(info, m);
            row[i].right <= row[j].left
  {
    var bw, bh, space, border := m.measureBoxWidth, m.measureBoxHeight, m.measureBoxSpace, info.boxBorderSize;
    var row := CellRow(info, m);
    assert row[i] == CellAt(info, m, i) && row[j] == CellAt(info, m, j);
    if info.boxType == Rect && m.mergedRectBox {
      MergedCellsOrdered(i, j, bw, bh, border, info.mergedRectBoxDividerWidth);
    } else if info.boxType == Underline {
      UnderlineCellsOrdered(i, j, bw, bh, space, border);
    } else {
      IndependentCellsOrdered(i, j, bw, bh, space, border);
    }
  }

  /** The two sums onMeasure forms are the extent of the row drawBox records:
      the content width runs from the padding and the left margin to the last
      cell's right edge plus its border (an underline cell already spans its
      borders) and the right margin; the content height from the padding to
      the cells' bottom edge plus the bottom border. */
  lemma ContentSumsSpanRow(info: MeasureInfo, horizontalPadding: int, verticalPadding: int, m: Measurement)
    requires info.passwordLength >= 1
    requires m.mergedRectBox ==> info.boxType == Rect && m.measureBoxSpace == 0.0
    ensures var row := CellRow(info, m);
            var last := row[info.passwordLength - 1];
            var border := if info.boxType == Underline then 0.0 else info.boxBorderSize;
            && row[0].left == border
            && ContentWidth(info, horizontalPadding, m)
               == horizontalPadding as real + 2.0 * m.measureBoxChainMargin + last.right + border
            && ContentHeight(info, verticalPadding, m) == verticalPadding as real + last.bottom + info.boxBorderSize
  {
    var n := info.passwordLength;
    var bw, bh, space, b := m.measureBoxWidth, m.measureBoxHeight, m.measureBoxSpace, info.boxBorderSize;
    var row := CellRow(info, m);
    assert row[0] == CellAt(info, m, 0) && row[n - 1] == CellAt(info, m, n - 1);
    if m.mergedRectBox {
      MergedRowExtent(n, bw, bh, b, info.mergedRectBoxDividerWidth);
    } else {
      IndependentRowExtent(n, bw, bh, space, b);
    }
  }

  /** The corner radii writes of drawMergedRectBoxBackground, for the radius
      getBoxBackgroundRadius gives. */
  function MergedBackgroundRadii(info: MeasureInfo, index: nat, rectBoxRadius: real, density: real): seq<real>
    requires density > 0.0
  {
    CornerRadii(index, info.passwordLength, BoxBackgroundRadius(rectBoxRadius, info.boxBorderSize, density))
  }

  /** What the radii array holds after drawBox: the last merged cell's radii
      when a merged chain of at least one cell was drawn, as before otherwise. */
  function RadiiAfterDraw(info: MeasureInfo, m: Measurement, rectBoxRadius: real, density: real, previous: seq<real>): seq<real>
    requires density > 0.0
  {
    if info.boxType == Rect && m.mergedRectBox && info.passwordLength >= 1
    then MergedBackgroundRadii(info, info.passwordLength - 1, rectBoxRadius, density)
    else previous
  }

  // -------------------------------------------------------------------- cursor

  /** A cursor line: from (startX, startY) down to (stopX, stopY). */
  datatype Segment = Segment(startX: real, startY: real, stopX: real, stopY: real)

  /** The drawCursor gate and geometry: a line in the cell after the last
      typed character, when the view is focused, the blink is in its visible
      phase and the password is not complete. */
  function CursorLine(focused: bool, drawCursor: bool, textLength: nat, passwordLength: nat, cells: seq<RectF>,
                      cursorWidth: real, cursorMarginTop: real, cursorMarginBottom: real): (line: Option<Segment>)
    requires passwordLength <= |cells|
    ensures line.Some? <==> focused && drawCursor && textLength < passwordLength
    ensures line.Some? ==> line.value.startX == line.value.stopX
    // the line's x sits half a cursor width left of the cell's centre
    ensures line.Some? ==> line.value.startX + cursorWidth * 0.5 == cells[textLength].CenterX()
    ensures line.Some? ==> line.value.startY == cells[textLength].top + cursorMarginTop
                           && line.value.stopY == cells[textLength].bottom - cursorMarginBottom
    ensures line.Some? && 0.0 <= cursorWidth <= cells[textLength].Width() ==>
              cells[textLength].left <= line.value.startX <= cells[textLength].right
  {
    if !focused then None
    else if !drawCursor then None
    else if textLength >= passwordLength then None
    else
      var cell := cells[textLength];
      var startX := cell.CenterX() - cursorWidth * 0.5;
      Some(Segment(startX, cell.top + cursorMarginTop, startX, cell.bottom - cursorMarginBottom))
  }

  /** The blink flag after `ticks` runs of the toggle task. */
  function AfterTicks(drawCursor: bool, cursorEnabled: bool, ticks: nat): bool
  {
    if ticks == 0 then drawCursor
    else
      var previous := AfterTicks(drawCursor, cursorEnabled, ticks - 1);
      if cursorEnabled then !previous else previous
  }

  /** An enabled cursor is visible after k ticks exactly when it started
      visible and k is even, or started hidden and k is odd; a disabled
      cursor never changes. */
  lemma {:induction false} AfterTicksParity(drawCursor: bool, cursorEnabled: bool, ticks: nat)
    ensures AfterTicks(drawCursor, cursorEnabled, ticks)
            == if cursorEnabled && ticks % 2 == 1 then !drawCursor else drawCursor
  {
    if ticks > 0 {
      AfterTicksParity(drawCursor, cursorEnabled, ticks - 1);
    }
  }

  // ---------------------------------------------------------------- listener

  /** The PasswordListener calls, in order. */
  datatype PasswordEvent = OnChanged(text: Option<string>) | OnCleared | OnFinished(password: string)

  /** The length of `s` in UTF-16 code units, which is what a Java
      CharSequence reports: a character outside the Basic Multilingual Plane
      is a surrogate pair and counts twice. */
  function Utf16Length(s: string): (n: nat)
    ensures |s| <= n <= 2 * |s|
  {
    if s == [] then 0
    else Utf16Length(s[..|s| - 1]) + (if s[|s| - 1] as int < 0x1_0000 then 1 else 2)
  }

  /** The UTF-16 length is the character count exactly when every character
      lies in the Basic Multilingual Plane. */
  lemma {:induction false} Utf16LengthCountsSurrogates(s: string)
    ensures Utf16Length(s) == |s| <==> forall i :: 0 <= i < |s| ==> s[i] as int < 0x1_0000
  {
    if s != [] {
      var init := s[..|s| - 1];
      Utf16LengthCountsSurrogates(init);
      assert forall i :: 0 <= i < |init| ==> init[i] == s[i];
    }
  }

  /** The length afterTextChanged reads: 0 for no text, else UTF-16 units. */
  function TextLength(text: Option<string>): nat
  {
    match text
    case None => 0
    case Some(s) => Utf16Length(s)
  }

  /** afterTextChanged: with a listener, onChanged always, then onCleared
      for empty text, or else onFinished once the text has N characters. */
  function AfterTextChanged(hasListener: bool, text: Option<string>, passwordLength: nat): (events: seq<PasswordEvent>)
    ensures !hasListener ==> events == []
    ensures hasListener ==> 1 <= |events| <= 2 && events[0] == OnChanged(text)
    ensures OnCleared in events <==> hasListener && TextLength(text) == 0
    ensures (exists i :: 0 <= i < |events| && events[i].OnFinished?)
            <==> hasListener && TextLength(text) == passwordLength && passwordLength > 0
    ensures forall i :: 0 <= i < |events| && events[i].OnFinished? ==> text == Some(events[i].password)
  {
    if !hasListener then []
    else
      var length := TextLength(text);
      if length == 0 then [OnChanged(text), OnCleared]
      else if length == passwordLength then
        var events := [OnChanged(text), OnFinished(text.value)];
        assert events[1].OnFinished?;
        events
      else [OnChanged(text)]
  }

  /** One emoji typed into a two-box view is a surrogate pair: the length
      reaches 2 and the password is reported finished. */
  lemma SurrogatePairFinishes()
    ensures AfterTextChanged(true, Some("\U{1F600}"), 2) == [OnChanged(Some("\U{1F600}")), OnFinished("\U{1F600}")]
  {
    assert Utf16Length("\U{1F600}") == 2 by {
      assert "\U{1F600}"[..0] == [];
    }
  }

  /** Clearing and finishing never happen in one change. */
  lemma ClearedAndFinishedExclusive(hasListener: bool, text: Option<string>, passwordLength: nat)
    ensures var events := AfterTextChanged(hasListener, text, passwordLength);
            !(OnCleared in events && exists i :: 0 <= i < |events| && events[i].OnFinished?)
  {
  }

  // ------------------------------------------------------------------ the view

  class PasswordView {
    var info: MeasureInfo
    var measurer: Option<Measurer>
    const measuring: MeasureResult
    const measured: MeasureResult
    var boxRects: seq<RectF>
    const boxRadii: array<real>
    var rectBoxRadius: real
    const density: real
    var cursorEnabled: bool
    var drawCursor: bool
    var paddingLeft: int
    var paddingTop: int
    var paddingRight: int
    var paddingBottom: int

    /** The two records are distinct objects, the radii array holds the
        eight values Path.addRoundRect reads, and the display density is positive. */
    predicate Valid()
      reads this
    {
      measuring != measured && boxRadii.Length == 8 && density > 0.0
    }

    constructor (info: MeasureInfo, measurer: Option<Measurer>, density: real, rectBoxRadius: real, cursorEnabled: bool)
      requires density > 0.0
      ensures Valid() && fresh(measuring) && fresh(measured) && fresh(boxRadii)
      ensures this.info == info && this.measurer == measurer && this.density == density
      ensures this.rectBoxRadius == rectBoxRadius && this.cursorEnabled == cursorEnabled
      ensures boxRects == [] && !drawCursor
      ensures measuring.Value() == measured.Value() == Measurement(0.0, 0.0, 0.0, 0.0, 0.0, 0.0, 0.0, 0.0, false)
    {
      this.info := info;
      this.measurer := measurer;
      this.density := density;
      this.rectBoxRadius := rectBoxRadius;
      this.cursorEnabled := cursorEnabled;
      drawCursor := false;
      boxRects := [];
      paddingLeft, paddingTop, paddingRight, paddingBottom := 0, 0, 0, 0;
      measuring := new MeasureResult();
      measured := new MeasureResult();
      boxRadii := new real[8](_ => 0.0);
    }

    /** The host view of this widget for one layout pass. */
    function HostFor(widthSpec: MeasureSpec, heightSpec: MeasureSpec,
                     suggestedMinimumWidth: int, suggestedMinimumHeight: int): Host
      reads this
    {
      Host(widthSpec, heightSpec, suggestedMinimumWidth, suggestedMinimumHeight,
           paddingLeft, paddingTop, paddingRight, paddingBottom)
    }

    /** The content sums of onMeasure: the working record's content sizes,
        formed from the measured record. */
    method FormContentSizes()
      requires Valid()
      modifies measuring
      ensures measuring.Value() == old(measuring.Value()).(
                measureContentWidth := ContentWidth(info, paddingLeft + paddingRight, measured.Value()),
                measureContentHeight := ContentHeight(info, paddingTop + paddingBottom, measured.Value()))
    {
      var published := measured.Value();
      var contentWidth := ContentWidth(info, paddingLeft + paddingRight, published);
      var contentHeight := ContentHeight(info, paddingTop + paddingBottom, published);
      measuring.measureContentWidth := contentWidth;
      measuring.measureContentHeight := contentHeight;
    }

    /** The measuring part of onMeasure once a measurer is installed:
        measure into the working record, form the content sums from the
        measured record, and copy the working record over it. */
    method MeasureAndPublish(kind: Measurer, host: Host)
      requires Valid() && WidthComputable(kind, info, host.widthSpec)
      requires host.HorizontalPadding() == paddingLeft + paddingRight
      requires host.VerticalPadding() == paddingTop + paddingBottom
      modifies measuring, measured
      ensures measured.Value() == MeasurePass(kind, info, host, old(measuring.Value())).(
                measureContentWidth := ContentWidth(info, host.HorizontalPadding(), old(measured.Value())),
                measureContentHeight := ContentHeight(info, host.VerticalPadding(), old(measured.Value())))
      ensures measuring.Value() == measured.Value()
    {
      Measure(kind, info, host, measuring);
      FormContentSizes();
      measured.Copy(measuring);
    }

    /** onMeasure. */
    method OnMeasure(widthSpec: MeasureSpec, heightSpec: MeasureSpec,
                     suggestedMinimumWidth: int, suggestedMinimumHeight: int)
      requires Valid()
      requires measurer.Some? ==> WidthComputable(measurer.value, info, widthSpec)
      modifies measuring, measured
      ensures var host := HostFor(widthSpec, heightSpec, suggestedMinimumWidth, suggestedMinimumHeight);
              measured.Value() == Remeasured(measurer, info, host, old(measuring.Value()), old(measured.Value()))
      ensures measurer.Some? ==> measuring.Value() == measured.Value()
      ensures measurer.None? ==> measuring.Value() == Cleared(old(measuring.Value()))
    {
      measuring.Clear();
      match measurer {
        case None =>
          measured.Clear();
        case Some(kind) =>
          var host := HostFor(widthSpec, heightSpec, suggestedMinimumWidth, suggestedMinimumHeight);
          MeasureAndPublish(kind, host);
      }
    }

    /** Writes cell `index` of `row` into the cell list (the set-or-add of
        every drawBox loop): the entry is overwritten when the list has one
        there, appended otherwise, so the list becomes the overlay of one more
        cell of the row. */
    method RecordCell(ghost previous: seq<RectF>, ghost row: seq<RectF>, index: nat, rect: RectF)
      requires index < |row| && rect == row[index]
      requires boxRects == Overlay(previous, row[..index])
      modifies this`boxRects
      ensures boxRects == Overlay(previous, row[..index + 1])
    {
      OverlayExtends(previous, row, index);
      if |boxRects| > index {
        boxRects := boxRects[index := rect];
      } else {
        boxRects := boxRects + [rect];
      }
    }

    /** drawMergedRectBoxBackground: the radii for cell `index`. */
    method DrawMergedRectBoxBackground(index: nat)
      requires Valid()
      modifies boxRadii
      ensures boxRadii[..] == MergedBackgroundRadii(info, index, rectBoxRadius, density)
    {
      var boxBackgroundRadius := BoxBackgroundRadius(rectBoxRadius, info.boxBorderSize, density);
      if index == 0 {
        boxRadii[0], boxRadii[1] := boxBackgroundRadius, boxBackgroundRadius;
        boxRadii[2], boxRadii[3] := 0.0, 0.0;
        boxRadii[4], boxRadii[5] := 0.0, 0.0;
        boxRadii[6], boxRadii[7] := boxBackgroundRadius, boxBackgroundRadius;
      } else if index == info.passwordLength - 1 {
        boxRadii[0], boxRadii[1] := 0.0, 0.0;
        boxRadii[2], boxRadii[3] := boxBackgroundRadius, boxBackgroundRadius;
        boxRadii[4], boxRadii[5] := boxBackgroundRadius, boxBackgroundRadius;
        boxRadii[6], boxRadii[7] := 0.0, 0.0;
      } else {
        boxRadii[0], boxRadii[1] := 0.0, 0.0;
        boxRadii[2], boxRadii[3] := 0.0, 0.0;
        boxRadii[4], boxRadii[5] := 0.0, 0.0;
        boxRadii[6], boxRadii[7] := 0.0, 0.0;
      }
    }

    /** The merged branch of drawRectBox: each cell starts one divider after
        the previous cell's right edge, and each gets its background radii. */
    method DrawMergedCells()
      requires Valid() && info.boxType == Rect && measured.mergedRectBox
      modifies this`boxRects, boxRadii
      ensures boxRects == Overlay(old(boxRects), CellRow(info, measured.Value()))
      ensures boxRadii[..] == RadiiAfterDraw(info, measured.Value(), rectBoxRadius, density, old(boxRadii[..]))
    {
      ghost var before := boxRects;
      ghost var row := CellRow(info, measured.Value());
      var passwordLength := info.passwordLength;
      var boxBorderSize := info.boxBorderSize;
      var measureBoxWidth := measured.measureBoxWidth;
      var measureBoxHeight := measured.measureBoxHeight;
      var lastRight := 0.0;
      var index := 0;
      while index < passwordLength
        invariant 0 <= index <= passwordLength
        invariant boxRects == Overlay(before, row[..index])
        invariant index > 0 ==> lastRight == MergedCell(index - 1, measureBoxWidth, measureBoxHeight, boxBorderSize, info.mergedRectBoxDividerWidth).right
        invariant index > 0 ==> boxRadii[..] == MergedBackgroundRadii(info, index - 1, rectBoxRadius, density)
        invariant index == 0 ==> boxRadii[..] == old(boxRadii[..])
      {
        var left: real;
        if index == 0 {
          left := boxBorderSize;
        } else {
          left := lastRight + info.mergedRectBoxDividerWidth;
        }
        var top := boxBorderSize;
        var rect := RectF(left, top, left + measureBoxWidth, top + measureBoxHeight);
        assert rect == MergedCell(index, measureBoxWidth, measureBoxHeight, boxBorderSize, info.mergedRectBoxDividerWidth);
        assert rect == CellAt(info, measured.Value(), index);
        RecordCell(before, row, index, rect);
        lastRight := rect.right;
        DrawMergedRectBoxBackground(index);
        index := index + 1;
      }
      assert row[..index] == row;
    }

    /** The loop drawRectBox (unmerged) and drawOvalBox share: each cell's
        stroke rect, recorded as is without a border and shrunk by half a
        border inside one. */
    method DrawStrokedCells()
      requires info.boxType == Oval || (info.boxType == Rect && !measured.mergedRectBox)
      modifies this`boxRects
      ensures boxRects == Overlay(old(boxRects), CellRow(info, measured.Value()))
    {
      ghost var before := boxRects;
      ghost var row := CellRow(info, measured.Value());
      var passwordLength := info.passwordLength;
      var boxBorderSize := info.boxBorderSize;
      var measureBoxWidth := measured.measureBoxWidth;
      var measureBoxHeight := measured.measureBoxHeight;
      var measureBoxSpace := measured.measureBoxSpace;
      var index := 0;
      while index < passwordLength
        invariant 0 <= index <= passwordLength
        invariant boxRects == Overlay(before, row[..index])
      {
        var i := index as real;
        var left := measureBoxWidth * i + boxBorderSize * 2.0 * i + measureBoxSpace * i + boxBorderSize * 0.5;
        var top := boxBorderSize * 0.5;
        var right := left + measureBoxWidth + boxBorderSize;
        var bottom := top + measureBoxHeight + boxBorderSize;
        ghost var stroke := RectF(left, top, right, bottom);
        assert stroke == StrokeRect(index, measureBoxWidth, measureBoxHeight, measureBoxSpace, boxBorderSize);
        if boxBorderSize != 0.0 {
          left := left + boxBorderSize * 0.5;
          top := top + boxBorderSize * 0.5;
          right := right - boxBorderSize * 0.5;
          bottom := bottom - boxBorderSize * 0.5;
        }
        var rect := RectF(left, top, right, bottom);
        assert rect == IndependentCell(index, measureBoxWidth, measureBoxHeight, measureBoxSpace, boxBorderSize);
        assert rect == CellAt(info, measured.Value(), index);
        RecordCell(before, row, index, rect);
        index := index + 1;
      }
      assert row[..index] == row;
    }

    /** The loop of drawUnderlineBox. */
    method DrawUnderlineCells()
      requires info.boxType == Underline
      modifies this`boxRects
      ensures boxRects == Overlay(old(boxRects), CellRow(info, measured.Value()))
    {
      ghost var before := boxRects;
      ghost var row := CellRow(info, measured.Value());
      var passwordLength := info.passwordLength;
      var boxBorderSize := info.boxBorderSize;
      var measureBoxWidth := measured.measureBoxWidth;
      var measureBoxHeight := measured.measureBoxHeight;
      var measureBoxSpace := measured.measureBoxSpace;
      var index := 0;
      while index < passwordLength
        invariant 0 <= index <= passwordLength
        invariant boxRects == Overlay(before, row[..index])
      {
        var i := index as real;
        var startX := measureBoxWidth * i + boxBorderSize * 2.0 * i + measureBoxSpace * i;
        var stopX := startX + measureBoxWidth + boxBorderSize * 2.0;
        var rect := RectF(startX, boxBorderSize, stopX, boxBorderSize + measureBoxHeight);
        assert rect == row[index];
        RecordCell(before, row, index, rect);
        index := index + 1;
      }
      assert row[..index] == row;
    }

    /** drawBox: the box type's loop; returns the cell list, which keeps any
        entries beyond N from an earlier, longer chain. */
    method DrawBox() returns (cells: seq<RectF>)
      requires Valid()
      modifies this`boxRects, boxRadii
      ensures cells == boxRects == Overlay(old(boxRects), CellRow(info, measured.Value()))
      ensures |cells| >= info.passwordLength
      ensures boxRadii[..] == RadiiAfterDraw(info, measured.Value(), rectBoxRadius, density, old(boxRadii[..]))
    {
      match info.boxType {
        case Rect =>
          if measured.mergedRectBox {
            DrawMergedCells();
          } else {
            DrawStrokedCells();
          }
        case Oval =>
          DrawStrokedCells();
        case Underline =>
          DrawUnderlineCells();
      }
      cells := boxRects;
    }

    /** DrawCursorToggleTask.run, less the rescheduling: flips the blink
        phase when the cursor is enabled. */
    method ToggleCursor()
      modifies this`drawCursor
      ensures drawCursor == AfterTicks(old(drawCursor), cursorEnabled, 1)
    {
      if !cursorEnabled {
        return;
      }
      drawCursor := !drawCursor;
    }
  }
}
