/** Configuration of a PasswordView: the box shape, the chain style, the
    measure mode a host hands to a measurer, and the MeasureInfo record that
    every measurer and the chain helper read. Java floats are idealised as
    `real`; pixel sizes handed over by the host stay `int`. */
module Config {

  datatype Option<T> = None | Some(value: T)

  /** BOX_TYPE_RECT, BOX_TYPE_OVAL, BOX_TYPE_UNDERLINE */
  datatype BoxType = Rect | Oval | Underline

  /** BOX_CHAIN_STYLE_FREE, _SPREAD, _SPREAD_INSIDE, _PACKET */
  datatype ChainStyle = Free | Spread | SpreadInside | Packet

  /** The three MeasureSpec modes of the host layout pass. */
  datatype MeasureMode = Unspecified | Exactly | AtMost

  /** BOX_MEASURE_MODE_BOUND, _FILL, _FREE: which measurer strategy is installed. */
  datatype Measurer = Bound | Fill | FreeMeasurer

  /** A host constraint: the mode and the size packed into one MeasureSpec. */
  datatype MeasureSpec = MeasureSpec(mode: MeasureMode, size: int)

  /** What a measure pass reads from the host and the view besides
      MeasureInfo: the two constraints, the view's suggested minimum sizes and
      its paddings. */
  datatype Host = Host(
    widthSpec: MeasureSpec,
    heightSpec: MeasureSpec,
    suggestedMinimumWidth: int,
    suggestedMinimumHeight: int,
    paddingLeft: int,
    paddingTop: int,
    paddingRight: int,
    paddingBottom: int)
  {
    function HorizontalPadding(): int { paddingLeft + paddingRight }
    function VerticalPadding(): int { paddingTop + paddingBottom }
  }

  /** The layout configuration (the fields of MeasureInfo). A percent or
      ratio wins over the absolute value when it is positive. */
  datatype MeasureInfo = MeasureInfo(
    passwordLength: nat,
    boxType: BoxType,
    boxChainStyle: ChainStyle,
    boxWidth: real,
    boxHeight: real,
    boxWidthPercent: real,
    boxHeightRatio: real,
    boxBorderSize: real,
    boxSpace: real,
    boxSpacePercent: real,
    mergeRectBoxEnabled: bool,
    mergedRectBoxDividerWidth: real)

  /** View.getDefaultSize: the suggested minimum when the host leaves the
      dimension unspecified, the host's size otherwise. */
  function DefaultSize(suggestedMinimum: int, spec: MeasureSpec): (size: int)
    ensures spec.mode == Unspecified ==> size == suggestedMinimum
    ensures spec.mode != Unspecified ==> size == spec.size
  {
    match spec.mode
    case Unspecified => suggestedMinimum
    case Exactly => spec.size
    case AtMost => spec.size
  }

  /** Merging of adjacent borders is possible at all: enabled and rectangular boxes. */
  predicate Mergeable(info: MeasureInfo)
  {
    info.mergeRectBoxEnabled && info.boxType == Rect
  }

  /** The width a merged chain saves or costs over independent boxes: each of
      the N - 1 inner seams carries one divider instead of two borders. */
  function MergeAdjustment(info: MeasureInfo): real
  {
    (info.mergedRectBoxDividerWidth - 2.0 * info.boxBorderSize) * (info.passwordLength as real - 1.0)
  }

  /** The box width a measurer expects once the total width is known. */
  function ExpectedBoxWidth(info: MeasureInfo, width: real): real
  {
    if info.boxWidthPercent > 0.0 then width * info.boxWidthPercent else info.boxWidth
  }

  /** The box space a measurer uses once the total width is known. */
  function ExpectedBoxSpace(info: MeasureInfo, width: real): real
  {
    if info.boxSpacePercent > 0.0 then width * info.boxSpacePercent else info.boxSpace
  }

  /** The box height asked for by the configuration, once the box width is known. */
  function DesiredBoxHeight(info: MeasureInfo, boxWidth: real): real
  {
    if info.boxHeightRatio > 0.0 then boxWidth * info.boxHeightRatio else info.boxHeight
  }

  function Min(a: real, b: real): real { if a <= b then a else b }
  function Max(a: real, b: real): real { if a >= b then a else b }
}
