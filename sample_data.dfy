/** The fixed sample series the satisfaction chart is drawn from, and the
    domains of its two axes. */
module SatisfactionSample {
  import opened MonthAxis

  /** One weekly observation: week of the year, satisfaction in percent, month tag. */
  datatype WeekPoint = WeekPoint(week: int, satisfaction: int, month: string)

  const YDomainMin: int := 0
  const YDomainMax: int := 100

  const SatisfactionData: seq<WeekPoint> := [
    WeekPoint(5, 72, "Feb"), WeekPoint(6, 75, "Feb"), WeekPoint(7, 73, "Feb"), WeekPoint(8, 78, "Feb"),
    WeekPoint(9, 76, "Mar"), WeekPoint(10, 74, "Mar"), WeekPoint(11, 79, "Mar"), WeekPoint(12, 77, "Mar"),
    WeekPoint(13, 81, "Mar"),
    WeekPoint(14, 83, "Abr"), WeekPoint(15, 80, "Abr"), WeekPoint(16, 78, "Abr"), WeekPoint(17, 75, "Abr"),
    WeekPoint(18, 73, "May"), WeekPoint(19, 71, "May"), WeekPoint(20, 69, "May"), WeekPoint(21, 67, "May"),
    WeekPoint(22, 70, "May"),
    WeekPoint(23, 72, "Jun"), WeekPoint(24, 69, "Jun"), WeekPoint(25, 66, "Jun"), WeekPoint(26, 68, "Jun")
  ]

  predicate WeeksStrictlyIncreasing(s: seq<WeekPoint>) {
    forall i, j :: 0 <= i < j < |s| ==> s[i].week < s[j].week
  }

  /** Every point lies inside the plotted rectangle of both axes. */
  predicate InsideDomains(s: seq<WeekPoint>) {
    forall i :: 0 <= i < |s| ==>
      XDomainMin <= s[i].week as real <= XDomainMax && YDomainMin <= s[i].satisfaction <= YDomainMax
  }

  /** The sample covers weeks 5 to 26, one point per week, in order. */
  lemma SampleWeeksConsecutive()
    ensures |SatisfactionData| == 22
    ensures forall i :: 0 <= i < |SatisfactionData| ==> SatisfactionData[i].week == i + 5
  {
  }

  /** The sample weeks increase strictly and every point lies inside both axis domains. */
  lemma SampleWellFormed()
    ensures WeeksStrictlyIncreasing(SatisfactionData)
    ensures InsideDomains(SatisfactionData)
    ensures forall i :: 0 <= i < |SatisfactionData| ==> SatisfactionData[i].month in MonthNames
  {
    SampleWeeksConsecutive();
  }
}
