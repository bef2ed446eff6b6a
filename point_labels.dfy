/** The custom point label of the satisfaction line: each data point shows
    its value as a percent text, placed alternately above and below the
    point according to the point's index in the series. Screen y grows
    downwards, so a negative offset puts the label above the point. */
module PointLabels {
  import opened PercentFormat

  /** Offset for a label drawn above the point. */
  const AboveOffset: int := -18
  /** Offset for a label drawn below the point. */
  const BelowOffset: int := 25

  datatype Side = Above | Below

  /** A rendered label: its vertical position and its text. */
  datatype PointLabel = PointLabel(y: real, text: string)

  /** Vertical offset of the label of the point at `index`. JavaScript's
      `index % 2 === 0` and Dafny's `index % 2 == 0` agree on every integer
      (both test evenness), so no conversion of the remainder is needed. */
  function LabelYOffset(index: int): (dy: int)
    ensures dy == AboveOffset || dy == BelowOffset
  {
    if index % 2 == 0 then AboveOffset else BelowOffset
  }

  function SideOf(dy: int): Side {
    if dy < 0 then Above else Below
  }

  /** The label of the point at `index` with value `value`, drawn at point height `y`. */
  function CustomLabel(index: int, value: int, y: real): (l: PointLabel)
    ensures l.y == y + AboveOffset as real || l.y == y + BelowOffset as real
    ensures ParsePercent(l.text) == Some(value)
  {
    PercentRoundTrip(value);
    PointLabel(y + LabelYOffset(index) as real, PercentText(value))
  }

  /** Even-indexed labels go above the point, odd-indexed ones below. */
  lemma ParityDecidesSide(k: int)
    ensures SideOf(LabelYOffset(2 * k)) == Above
    ensures SideOf(LabelYOffset(2 * k + 1)) == Below
    ensures LabelYOffset(2 * k) == AboveOffset && LabelYOffset(2 * k + 1) == BelowOffset
  {
  }

  /** Labels of consecutive points always land on opposite sides. */
  lemma ConsecutiveLabelsAlternate(index: int)
    ensures SideOf(LabelYOffset(index)) != SideOf(LabelYOffset(index + 1))
    ensures LabelYOffset(index + 2) == LabelYOffset(index)
  {
  }

  /** The drawn label sits on the side its index decides. */
  lemma CustomLabelPlacement(index: int, value: int, y: real)
    ensures CustomLabel(index, value, y).y < y <==> SideOf(LabelYOffset(index)) == Above
  {
  }
}
