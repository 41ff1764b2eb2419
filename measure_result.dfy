/** MeasureResult: the record a measure pass fills in. The widget keeps two
    of them (the one being measured and the last one measured) and updates
    their fields in place, so it is a class; `Measurement` is the value of
    its fields at one moment, which the specification functions work on. */
module Metrics {

  datatype Measurement = Measurement(
    measureWidth: real,
    measureHeight: real,
    measureContentWidth: real,
    measureContentHeight: real,
    measureBoxWidth: real,
    measureBoxHeight: real,
    measureBoxSpace: real,
    measureBoxChainMargin: real,
    mergedRectBox: bool)

  /** What `clear` leaves behind. The source resets measureBoxHeight twice and
      never resets measureHeight, so the stale height survives a clear. */
  function Cleared(m: Measurement): (c: Measurement)
    ensures c.measureHeight == m.measureHeight
    ensures c == Measurement(0.0, m.measureHeight, 0.0, 0.0, 0.0, 0.0, 0.0, 0.0, false)
  {
    m.(measureWidth := 0.0, measureContentWidth := 0.0, measureContentHeight := 0.0,
       measureBoxWidth := 0.0, measureBoxHeight := 0.0,
       measureBoxSpace := 0.0, measureBoxChainMargin := 0.0, mergedRectBox := false)
  }

  /** Two cleared records differ at most in the height a previous pass left. */
  lemma ClearedDiffersOnlyInHeight(m1: Measurement, m2: Measurement)
    ensures Cleared(m1) == Cleared(m2) <==> m1.measureHeight == m2.measureHeight
    ensures Cleared(m1).(measureHeight := 0.0) == Cleared(m2).(measureHeight := 0.0)
  {
  }

  class MeasureResult {
    var measureWidth: real
    var measureHeight: real
    var measureContentWidth: real
    var measureContentHeight: real
    var measureBoxWidth: real
    var measureBoxHeight: real
    var measureBoxSpace: real
    var measureBoxChainMargin: real
    var mergedRectBox: bool

    /** The current field values as one record. */
    function Value(): Measurement
      reads this
    {
      Measurement(measureWidth, measureHeight, measureContentWidth, measureContentHeight,
                  measureBoxWidth, measureBoxHeight, measureBoxSpace, measureBoxChainMargin,
                  mergedRectBox)
    }

    /** A fresh record: every Java float field starts at 0 and the flag at false. */
    constructor ()
      ensures Value() == Measurement(0.0, 0.0, 0.0, 0.0, 0.0, 0.0, 0.0, 0.0, false)
    {
      measureWidth, measureHeight := 0.0, 0.0;
      measureContentWidth, measureContentHeight := 0.0, 0.0;
      measureBoxWidth, measureBoxHeight := 0.0, 0.0;
      measureBoxSpace, measureBoxChainMargin := 0.0, 0.0;
      mergedRectBox := false;
    }

    method Clear()
      modifies this
      ensures Value() == Cleared(old(Value()))
    {
      measureWidth := 0.0;
      measureBoxHeight := 0.0;
      measureContentWidth := 0.0;
      measureContentHeight := 0.0;
      measureBoxWidth := 0.0;
      measureBoxHeight := 0.0;
      measureBoxSpace := 0.0;
      measureBoxChainMargin := 0.0;
      mergedRectBox := false;
    }

    /** Copies every field of `other` into this record; `other` itself may be this record. */
    method Copy(other: MeasureResult)
      modifies this
      ensures Value() == old(other.Value())
      ensures other != this ==> other.Value() == old(other.Value())
    {
      measureWidth := other.measureWidth;
      measureHeight := other.measureHeight;
      measureContentWidth := other.measureContentWidth;
      measureContentHeight := other.measureContentHeight;
      measureBoxWidth := other.measureBoxWidth;
      measureBoxHeight := other.measureBoxHeight;
      measureBoxSpace := other.measureBoxSpace;
      measureBoxChainMargin := other.measureBoxChainMargin;
      mergedRectBox := other.mergedRectBox;
    }
  }
}
