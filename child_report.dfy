/** The printable child report: a status banner text, the colour of each
    Z-score cell of the history table, a summary of the first (newest)
    measurement with a growth trend, and one recommendation list per status. */
module ChildReport {
  import opened Api
  import GrowthChart

  function StatusText(status: string): (t: string)
    ensures t == "Critical Concern - Urgent Intervention Required" <==> status == "danger"
    ensures t == "Moderate Concern - Close Monitoring Required" <==> status == "warning"
    ensures t == "Normal Growth - Continue Regular Monitoring" <==> status != "danger" && status != "warning"
  {
    if status == "danger" then "Critical Concern - Urgent Intervention Required"
    else if status == "warning" then "Moderate Concern - Close Monitoring Required"
    else "Normal Growth - Continue Regular Monitoring"
  }

  /** The text colour of a Z-score cell. */
  function CellColor(v: real): (c: string)
    ensures c == "text-destructive" <==> v < -2.0
    ensures c == "text-amber-500" <==> -2.0 <= v < -1.0
    ensures c == "text-green-600" <==> -1.0 <= v
  {
    if v < -2.0 then "text-destructive"
    else if v < -1.0 then "text-amber-500"
    else "text-green-600"
  }

  datatype Trend = Improving | Declining | InsufficientData

  function TrendText(t: Trend): string
  {
    match t
    case Improving => "Improving"
    case Declining => "Declining"
    case InsufficientData => "Insufficient data for trend analysis"
  }

  /** Compares the weight-for-age of the first two entries of the history,
      which the profile page lists newest first. */
  function GrowthTrend(ms: seq<MeasurementHistory>): (t: Trend)
    ensures t == Improving <==> |ms| > 1 && ms[0].weightForAge > ms[1].weightForAge
    ensures t == Declining <==> |ms| > 1 && ms[0].weightForAge <= ms[1].weightForAge
    ensures t == InsufficientData <==> |ms| <= 1
  {
    if |ms| > 1 then
      if ms[0].weightForAge > ms[1].weightForAge then Improving else Declining
    else InsufficientData
  }

  /** An unchanged weight-for-age is reported as declining. */
  lemma SteadyCountsAsDeclining(ms: seq<MeasurementHistory>)
    requires |ms| > 1 && ms[0].weightForAge == ms[1].weightForAge
    ensures TrendText(GrowthTrend(ms)) == "Declining"
  {
  }

  datatype Summary = Summary(
    weight: real,
    height: real,
    weightForAge: real,
    heightForAge: real,
    weightForHeight: real,
    trend: Trend)

  /** The assessment summary. The report reads the first measurement without
      a check, so it needs a non-empty history. */
  function AssessmentSummary(ms: seq<MeasurementHistory>): (s: Summary)
    requires |ms| > 0
    ensures s.weight == ms[0].weight && s.height == ms[0].height
    ensures ScoresOf(ms[0]) == ZScores(s.heightForAge, s.weightForHeight, s.weightForAge)
    ensures s.trend == GrowthTrend(ms)
  {
    Summary(ms[0].weight, ms[0].height, ms[0].weightForAge, ms[0].heightForAge,
            ms[0].weightForHeight, GrowthTrend(ms))
  }

  /** On a history listed newest first, as the profile page passes it, the
      summary headed "Latest Measurements" reads an entry of maximal age: the
      value the corrected growth-chart badge shows. */
  lemma SummaryShowsNewest(ms: seq<MeasurementHistory>)
    requires |ms| > 0 && GrowthChart.NewestFirst(ms)
    ensures forall i :: 0 <= i < |ms| ==> ms[i].age <= ms[0].age
    ensures AssessmentSummary(ms).weightForAge == GrowthChart.BadgeFor(ms, WeightForAge).value
  {
  }

  /** On the profile page's history the summary shows the October 2023
      weight-for-age, -2.3, while the as-written chart badge shows the
      December 2022 value, -1.5. */
  lemma ProfileSummaryShowsNewest()
    ensures AssessmentSummary(GrowthChart.ProfileHistory()).weightForAge == -2.3
    ensures GrowthChart.LatestBadge(GrowthChart.ProfileHistory(), WeightForAge).value == -1.5
  {
  }

  const DangerActions := [
    "Immediate medical evaluation recommended",
    "Therapeutic feeding program enrollment",
    "Weekly follow-up appointments",
    "Nutritional supplementation",
    "Caregiver education on feeding practices" ]

  const WarningActions := [
    "Medical evaluation within 2 weeks",
    "Supplementary feeding program consideration",
    "Bi-weekly monitoring",
    "Dietary diversification guidance",
    "Caregiver education on feeding practices" ]

  const NormalActions := [
    "Continue regular growth monitoring",
    "Maintain current feeding practices",
    "Ensure adequate dietary diversity",
    "Next check-up in 3 months" ]

  /** The recommendation lists rendered, in order: each of the three
      conditional lists appears when its status test holds. */
  function RecommendationLists(status: string): (ls: seq<seq<string>>)
    ensures status == "danger" ==> ls == [DangerActions]
    ensures status == "warning" ==> ls == [WarningActions]
    ensures status == "normal" ==> ls == [NormalActions]
    ensures status != "danger" && status != "warning" && status != "normal" ==> ls == []
  {
    (if status == "danger" then [DangerActions] else [])
    + (if status == "warning" then [WarningActions] else [])
    + (if status == "normal" then [NormalActions] else [])
  }

  /** Each of the three statuses renders exactly one list, of 5, 5 and 4
      items. */
  lemma OneListPerStatus(status: string)
    requires status == "danger" || status == "warning" || status == "normal"
    ensures |RecommendationLists(status)| == 1
    ensures |RecommendationLists(status)[0]| == (if status == "normal" then 4 else 5)
  {
  }
}
