/** The month labelling of the time (week) axis of the customer-satisfaction
    chart: the two parallel constant tables, the name-to-position map, the
    tick list handed to the axis, and the tick formatter that turns a tick
    value into a Spanish month abbreviation. Positions are exact reals (all
    anchors are half-integers), so no floating-point rounding is involved. */
module MonthAxis {
  import opened ArraySearch

  /** Spanish month abbreviations, January first. */
  const MonthNames: seq<string> :=
    ["Ene", "Feb", "Mar", "Abr", "May", "Jun", "Jul", "Ago", "Sep", "Oct", "Nov", "Dic"]

  /** Week-axis anchor of each month, parallel to MonthNames. */
  const Positions: seq<real> :=
    [2.0, 6.0, 11.0, 15.5, 20.0, 24.5, 28.5, 33.0, 37.5, 42.0, 46.5, 50.0]

  /** The same anchors keyed by month name. */
  const MonthPositions: map<string, real> :=
    map["Ene" := 2.0, "Feb" := 6.0, "Mar" := 11.0, "Abr" := 15.5, "May" := 20.0, "Jun" := 24.5,
        "Jul" := 28.5, "Ago" := 33.0, "Sep" := 37.5, "Oct" := 42.0, "Nov" := 46.5, "Dic" := 50.0]

  /** The tick values the week axis is asked to draw. */
  const XAxisTicks: seq<real> :=
    [2.0, 6.0, 11.0, 15.5, 20.0, 24.5, 28.5, 33.0, 37.5, 42.0, 46.5, 50.0]

  /** Domain of the week axis. */
  const XDomainMin: real := 1.0
  const XDomainMax: real := 52.0

  /** Smallest gap between two consecutive anchors. */
  const MinAnchorGap: real := 3.5

  function Abs(x: real): (r: real)
    ensures r >= 0.0 && (r == x || r == -x)
  {
    if x < 0.0 then -x else x
  }

  /** The formatter's matching rule: the anchor lies strictly within distance 1 of the tick. */
  predicate Near(pos: real, tick: real) {
    Abs(pos - tick) < 1.0
  }

  /** Label for one tick value: the month of the first anchor near the tick, or "" if none is. */
  function FormatXAxisTick(tick: real): (text: string)
    ensures text == "" || text in MonthNames
    ensures text == "" <==> forall i :: 0 <= i < |Positions| ==> !Near(Positions[i], tick)
    ensures text != "" ==> exists i :: 0 <= i < |Positions| && Near(Positions[i], tick) && text == MonthNames[i]
  {
    var index := FindIndex(Positions, pos => Near(pos, tick));
    if index >= 0 then MonthNames[index] else ""
  }

  // ---------------------------------------------------------------------------
  // Properties of the constant tables

  /** The two parallel tables have one entry per month, and the names are distinct. */
  lemma TablesWellFormed()
    ensures |MonthNames| == |Positions| == 12
    ensures forall i, j :: 0 <= i < j < |MonthNames| ==> MonthNames[i] != MonthNames[j]
    ensures forall i :: 0 <= i < |MonthNames| ==> MonthNames[i] != ""
  {
  }

  /** Consecutive anchors increase by at least MinAnchorGap. */
  lemma ConsecutiveAnchorsSpaced()
    ensures forall i :: 0 <= i < |Positions| - 1 ==> Positions[i + 1] - Positions[i] >= MinAnchorGap
  {
  }

  /** Any two anchors, in table order, are at least MinAnchorGap apart. */
  lemma {:induction false} AnchorsSpaced(i: int, j: int)
    requires 0 <= i < j < |Positions|
    ensures Positions[j] - Positions[i] >= MinAnchorGap
  {
    ConsecutiveAnchorsSpaced();
    if j > i + 1 {
      AnchorsSpaced(i, j - 1);
    }
  }

  /** The anchors are strictly increasing. */
  lemma AnchorsStrictlyIncreasing()
    ensures forall i, j :: 0 <= i < j < |Positions| ==> Positions[i] < Positions[j]
  {
    forall i, j | 0 <= i < j < |Positions| ensures Positions[i] < Positions[j] {
      AnchorsSpaced(i, j);
    }
  }

  /** No tick is near two different anchors. */
  lemma AtMostOneAnchorNear(tick: real)
    ensures AtMostOneMatch(Positions, pos => Near(pos, tick))
  {
    forall i, j | 0 <= i < |Positions| && 0 <= j < |Positions| && Near(Positions[i], tick) && Near(Positions[j], tick)
      ensures i == j
    {
      if i < j {
        AnchorsSpaced(i, j);
      } else if j < i {
        AnchorsSpaced(j, i);
      }
    }
  }

  /** The map agrees with the parallel tables, and holds no other key. */
  lemma MonthPositionsAgree()
    ensures forall i :: 0 <= i < |MonthNames| ==> MonthNames[i] in MonthPositions && MonthPositions[MonthNames[i]] == Positions[i]
    ensures forall name :: name in MonthPositions ==> name in MonthNames
  {
  }

  /** The tick list handed to the axis is the anchor table, inside the axis domain. */
  lemma XAxisTicksAreAnchors()
    ensures XAxisTicks == Positions
    ensures forall k :: 0 <= k < |XAxisTicks| ==> XDomainMin <= XAxisTicks[k] <= XDomainMax
  {
  }

  // ---------------------------------------------------------------------------
  // Properties of the formatter

  /** Every tick within the open window (anchor - 1, anchor + 1) gets that anchor's month,
      whatever the search order. */
  lemma WindowGetsMonth(i: int, tick: real)
    requires 0 <= i < |Positions| && Positions[i] - 1.0 < tick < Positions[i] + 1.0
    ensures FormatXAxisTick(tick) == MonthNames[i]
  {
    assert Near(Positions[i], tick);
    AtMostOneAnchorNear(tick);
    FindIndexOfUniqueMatch(Positions, pos => Near(pos, tick), i);
  }

  /** First-match and last-match search give the same label. */
  lemma FormatSearchOrderIrrelevant(tick: real)
    ensures FormatXAxisTick(tick) ==
      (var k := FindLastIndex(Positions, pos => Near(pos, tick)); if k >= 0 then MonthNames[k] else "")
  {
    AtMostOneAnchorNear(tick);
    UniqueMatchSearchOrderIrrelevant(Positions, pos => Near(pos, tick));
  }

  /** Each anchor is labelled with its own month. */
  lemma AnchorGetsItsMonth(i: int)
    requires 0 <= i < |Positions|
    ensures FormatXAxisTick(Positions[i]) == MonthNames[i]
  {
    WindowGetsMonth(i, Positions[i]);
  }

  /** Every tick handed to the axis is labelled, with the month at the same index. */
  lemma EveryAxisTickLabelled()
    ensures forall k :: 0 <= k < |XAxisTicks| ==> FormatXAxisTick(XAxisTicks[k]) == MonthNames[k] != ""
  {
    forall k | 0 <= k < |XAxisTicks| ensures FormatXAxisTick(XAxisTicks[k]) == MonthNames[k] != "" {
      AnchorGetsItsMonth(k);
    }
  }

  /** Formatting a month's mapped position gives the month back. */
  lemma MappedPositionFormatsToMonth(name: string)
    requires name in MonthPositions
    ensures FormatXAxisTick(MonthPositions[name]) == name
  {
    MonthPositionsAgree();
    var i :| 0 <= i < |MonthNames| && MonthNames[i] == name;
    AnchorGetsItsMonth(i);
  }

  /** A labelled tick lies within distance 1 of its month's mapped position. */
  lemma LabelledTickNearMappedPosition(tick: real)
    requires FormatXAxisTick(tick) != ""
    ensures FormatXAxisTick(tick) in MonthPositions
    ensures Abs(MonthPositions[FormatXAxisTick(tick)] - tick) < 1.0
  {
    MonthPositionsAgree();
    var text := FormatXAxisTick(tick);
    var i :| 0 <= i < |Positions| && Near(Positions[i], tick) && text == MonthNames[i];
    assert MonthPositions[text] == Positions[i];
  }

  /** The tolerance is strict: a tick exactly 1 away from an anchor is not labelled. */
  lemma ToleranceIsStrict(i: int)
    requires 0 <= i < |Positions|
    ensures FormatXAxisTick(Positions[i] + 1.0) == ""
    ensures FormatXAxisTick(Positions[i] - 1.0) == ""
  {
    forall j | 0 <= j < |Positions| ensures !Near(Positions[j], Positions[i] + 1.0) && !Near(Positions[j], Positions[i] - 1.0) {
      if i < j {
        AnchorsSpaced(i, j);
      } else if j < i {
        AnchorsSpaced(j, i);
      }
    }
  }

  /** The two boundary ticks around the January anchor. */
  lemma JanuaryBoundaries()
    ensures FormatXAxisTick(1.0) == "" && FormatXAxisTick(3.0) == ""
  {
    ToleranceIsStrict(0);
  }
}
