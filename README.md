# Customer-satisfaction dashboard: time-axis labelling and point labels

This project models the logic of the single-page customer-satisfaction
dashboard (`src/App.js`): a line chart of weekly satisfaction percentages
whose week axis (domain 1 to 52) is labelled with Spanish month
abbreviations. Everything in the modelled file that has behaviour is pure:

- `formatXAxisTick` searches a fixed table of twelve anchor positions
  (2, 6, 11, 15.5, 20, 24.5, 28.5, 33, 37.5, 42, 46.5, 50) for the first one
  lying strictly within distance 1 of the tick. It returns the parallel month
  name (`Ene` … `Dic`), or the empty string when no anchor is that close.
- The `monthPositions` map, the parallel `monthNames`/`positions` arrays and
  the axis `ticks` list are constants that must agree with each other.
- `CustomLabel` prints each point's value with a `%` suffix. It places the
  label 18 units above the point for even indices and 25 units below it for
  odd ones. The value axis (domain 0 to 100) uses the same `%` text.
- `satisfactionData` is a fixed sample series for weeks 5 to 26.

Modules (one per concern of the file):

- `ArraySearch` (`search.dfy`): `findIndex` as a recursive first-match search,
  with a last-match search as reference definition.
- `MonthAxis` (`month_axis.dfy`): the tables, the tick list and the formatter.
  Anchors are exact Dafny `real`s, since every anchor is a half-integer.
- `PercentFormat` (`percent_format.dfy`): the decimal text of an integer plus
  `%`, with a parser as its inverse.
- `PointLabels` (`point_labels.dfy`): the label offset rule and the label itself.
- `SatisfactionSample` (`sample_data.dfy`): the sample series and the axis domains.

## Model

| member | source | states |
|---|---|---|
| `ArraySearch.FindIndex` | src/App.js:69 | the result is -1 or an index whose element satisfies the predicate with no earlier element satisfying it; -1 exactly when no element satisfies it |
| `ArraySearch.FindLastIndex` | src/App.js:69 | reference search from the back: the last satisfying index, -1 exactly when none satisfies |
| `ArraySearch.UniqueMatchSearchOrderIrrelevant` | src/App.js:69 | when at most one element matches, searching from the front and from the back give the same index |
| `ArraySearch.FindIndexOfUniqueMatch` | src/App.js:69 | when the match is unique, the first-match search returns that match's index |
| `MonthAxis.FormatXAxisTick` | src/App.js:65-71 | the label is "" or one of the twelve month names; it is "" exactly when no anchor lies strictly within distance 1 of the tick; a non-empty label is the month of an anchor near the tick |
| `MonthAxis.TablesWellFormed` | src/App.js:66-67 | the name and position tables both have twelve entries, the names are distinct and non-empty (so index -1 is the only way to get "") |
| `MonthAxis.ConsecutiveAnchorsSpaced` | src/App.js:67 | each anchor exceeds the previous one by at least 3.5 |
| `MonthAxis.AnchorsSpaced` | src/App.js:67 | any two anchors, in table order, are at least 3.5 apart |
| `MonthAxis.AnchorsStrictlyIncreasing` | src/App.js:67 | the anchor table is strictly increasing |
| `MonthAxis.AtMostOneAnchorNear` | src/App.js:67-69 | no tick value lies within distance 1 of two different anchors |
| `MonthAxis.MonthPositionsAgree` | src/App.js:59-67 | the name-to-position map gives `positions[i]` for `monthNames[i]`, for every i, and has no other key |
| `MonthAxis.XAxisTicksAreAnchors` | src/App.js:101-102 | the tick list handed to the axis equals the anchor table element-wise and lies inside the axis domain [1, 52] |
| `MonthAxis.FormatSearchOrderIrrelevant` | src/App.js:69-70 | formatting with a last-match search instead of `findIndex` gives the same label for every tick |
| `MonthAxis.WindowGetsMonth` | src/App.js:65-71 | every tick strictly within distance 1 of anchor i gets month i, because the first-match search finds the only anchor that close |
| `MonthAxis.AnchorGetsItsMonth` | src/App.js:66-70 | `formatXAxisTick(positions[i]) == monthNames[i]` for every i |
| `MonthAxis.EveryAxisTickLabelled` | src/App.js:102-103 | every tick handed to the axis gets the non-empty month name at the same index |
| `MonthAxis.MappedPositionFormatsToMonth` | src/App.js:59-70 | formatting the position the map gives for a month yields that month back |
| `MonthAxis.LabelledTickNearMappedPosition` | src/App.js:59-70 | a tick that gets a month label lies within distance 1 of the position the map gives for that month |
| `MonthAxis.ToleranceIsStrict` | src/App.js:69-70 | a tick exactly 1 above or below any anchor gets "" (the comparison is strict and no other anchor is close) |
| `MonthAxis.JanuaryBoundaries` | src/App.js:69-70 | ticks 1 and 3, exactly 1 away from the January anchor 2, get "" |
| `PercentFormat.NatToDecimal` | src/App.js:113 | the decimal text of a natural number is non-empty, all digits, and has no leading zero unless the number is 0 |
| `PercentFormat.IntText` | src/App.js:113 | the text of an integer is non-empty and starts with '-' exactly when the integer is negative |
| `PercentFormat.PercentText` | src/App.js:113 | the `${value}%` text ends with '%' and holds only digits between the optional sign and the suffix |
| `PercentFormat.DecimalRoundTrip` | src/App.js:113 | reading the decimal text of n gives n back |
| `PercentFormat.IntTextRoundTrip` | src/App.js:113 | parsing the text of any integer gives the integer back |
| `PercentFormat.PercentRoundTrip` | src/App.js:113 | parsing a percent text gives the value back |
| `PercentFormat.PercentTextInjective` | src/App.js:113 | two different values never have the same percent text |
| `PercentFormat.PercentTextExamples` | src/App.js:109-113 | the texts of 0, 25 and 100 are "0%", "25%" and "100%" |
| `PointLabels.LabelYOffset` | src/App.js:44 | the label offset is one of -18 (above) and 25 (below) |
| `PointLabels.ParityDecidesSide` | src/App.js:43-44 | the offset is -18 (above the point) for every even index and 25 (below it) for every odd index |
| `PointLabels.ConsecutiveLabelsAlternate` | src/App.js:44 | labels of consecutive indices land on opposite sides; the placement repeats with period 2 |
| `PointLabels.CustomLabel` | src/App.js:41-55 | the label is drawn 18 above or 25 below the point, and its text parses back to the point's value |
| `PointLabels.CustomLabelPlacement` | src/App.js:44-49 | the drawn label is higher on screen than the point exactly when its index puts it above |
| `SatisfactionSample.SampleWeeksConsecutive` | src/App.js:6-38 | the sample has 22 points whose weeks are 5, 6, …, 26 in order |
| `SatisfactionSample.SampleWellFormed` | src/App.js:6-38 | the sample weeks increase strictly, every point lies inside the week domain [1, 52] (line 101) and the value domain [0, 100] (line 109), and every month tag is one of the twelve month names |

## Left out

- Rendering: JSX, the DOM, CSS class names and the placeholder cards (src/App.js:73-165) have no behaviour to state.
- The chart library's components (`LineChart`, `Line`, `XAxis`, `YAxis`, `ResponsiveContainer`, `LabelList`) are foreign code. Only the callbacks handed to them are modelled. Which value-axis ticks the library picks is not modelled.
- `PointLabels.CustomLabel`: the horizontal coordinate `x` is passed through unchanged by the source and is left out; the point height `y` is taken as a parameter.
- `MonthAxis.FormatXAxisTick`: ticks are exact reals. IEEE-754 rounding of `Math.abs(pos - tickItem)` and non-numeric ticks (which give NaN and so "") are not modelled.
- `PercentFormat.IntText`: agrees with JavaScript's text only for integers of magnitude at most 2^53. Above 2^53 a JavaScript number holds only the nearest representable value, and its text is the shortest digits that read back to it, padded with zeros (2^64 prints as "18446744073709552000"); from 10^21 on it uses exponent form. The model writes the exact decimal digits instead. Every value in the chart lies in 0 to 100.
- `PercentFormat.PercentText`: only integer values are modelled, and it inherits the 2^53 limit of `PercentFormat.IntText`. JavaScript's text for fractional numbers is not modelled.
- Weekly statistics, trend classification, even value-axis tick planning, week-to-month bucketing, data fetching and the reload poll are not present in src/App.js. They are not part of this model.
