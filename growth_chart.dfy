/** The growth chart's Z-score badge: a colour and a label for a single
    value, and the choice of which measurement's value the badge shows. */
module GrowthChart {
  import opened Api

  const SecondaryBadge := "bg-secondary/20 border-secondary text-secondary-foreground"
  const WarningBadge := "bg-warning/20 border-warning text-warning-foreground"
  const DestructiveBadge := "bg-destructive/20 border-destructive text-destructive-foreground"

  function ZScoreColor(v: real): (c: string)
    ensures c == SecondaryBadge <==> -1.0 <= v <= 1.0
    ensures c == WarningBadge <==> (-2.0 <= v < -1.0 || 1.0 < v <= 2.0)
    ensures c == DestructiveBadge <==> (v < -2.0 || 2.0 < v)
  {
    if v >= -1.0 && v <= 1.0 then SecondaryBadge
    else if (v >= -2.0 && v < -1.0) || (v > 1.0 && v <= 2.0) then WarningBadge
    else DestructiveBadge
  }

  /** The four labels partition the reals. */
  function ZScoreText(v: real): (t: string)
    ensures t == "Normal" <==> -1.0 <= v <= 1.0
    ensures t == "Moderate Risk" <==> (-2.0 <= v < -1.0 || 1.0 < v <= 2.0)
    ensures t == "Undernutrition" <==> v < -2.0
    ensures t == "Overweight" <==> 2.0 < v
  {
    if v >= -1.0 && v <= 1.0 then "Normal"
    else if (v >= -2.0 && v < -1.0) || (v > 1.0 && v <= 2.0) then "Moderate Risk"
    else if v < -2.0 then "Undernutrition"
    else "Overweight"
  }

  /** The colour a label is shown in. */
  function LabelColor(t: string): string
  {
    if t == "Normal" then SecondaryBadge
    else if t == "Moderate Risk" then WarningBadge
    else DestructiveBadge
  }

  lemma ColorAgreesWithText(v: real)
    ensures ZScoreColor(v) == LabelColor(ZScoreText(v))
  {
  }

  /** The colour is symmetric around zero; the label is too up to magnitude
      2, beyond which undernutrition and overweight trade places. */
  lemma BandsSymmetric(v: real)
    ensures ZScoreColor(v) == ZScoreColor(-v)
    ensures -2.0 <= v <= 2.0 ==> ZScoreText(v) == ZScoreText(-v)
    ensures v < -2.0 ==> ZScoreText(v) == "Undernutrition" && ZScoreText(-v) == "Overweight"
  {
  }

  /** AS WRITTEN: the badge value is the selected metric of the LAST element,
      or 0 with no data. */
  function LatestZScore(data: seq<MeasurementHistory>, metric: Metric): (z: real)
    ensures |data| == 0 ==> z == 0.0
    ensures |data| > 0 ==> z == MetricValue(data[|data| - 1], metric)
  {
    if |data| > 0 then MetricValue(data[|data| - 1], metric) else 0.0
  }

  /** A history listed newest first, as the profile page and the API hold it. */
  predicate NewestFirst(data: seq<MeasurementHistory>)
  {
    forall i, j :: 0 <= i < j < |data| ==> data[i].age >= data[j].age
  }

  /** On a newest-first history the as-written badge reads the oldest
      measurement. */
  lemma LatestZScoreReadsOldest(data: seq<MeasurementHistory>, metric: Metric)
    requires NewestFirst(data) && |data| > 0
    ensures exists k :: (0 <= k < |data| && LatestZScore(data, metric) == MetricValue(data[k], metric)
      && forall i :: 0 <= i < |data| ==> data[k].age <= data[i].age)
  {
    var k := |data| - 1;
    assert forall i :: 0 <= i < |data| ==> data[k].age <= data[i].age by {
      forall i | 0 <= i < k ensures data[i].age >= data[k].age {
      }
    }
    assert 0 <= k < |data| && LatestZScore(data, metric) == MetricValue(data[k], metric);
  }

  /** CORRECTED: the badge reads the most recent measurement, which leads a
      newest-first history. */
  function NewestZScore(data: seq<MeasurementHistory>, metric: Metric): (z: real)
    requires NewestFirst(data)
    ensures |data| == 0 ==> z == 0.0
    ensures |data| > 0 ==> exists k :: (0 <= k < |data| && z == MetricValue(data[k], metric)
      && forall i :: 0 <= i < |data| ==> data[i].age <= data[k].age)
  {
    if |data| > 0 then MetricValue(data[0], metric) else 0.0
  }

  datatype Badge = Badge(value: real, color: string, text: string)

  /** CORRECTED: the badge beside the chart, shown for the most recent value. */
  function BadgeFor(data: seq<MeasurementHistory>, metric: Metric): (b: Badge)
    requires NewestFirst(data)
    ensures b.value == NewestZScore(data, metric)
    ensures b.color == LabelColor(b.text)
    ensures b.text == ZScoreText(b.value)
  {
    var z := NewestZScore(data, metric);
    Badge(z, ZScoreColor(z), ZScoreText(z))
  }

  /** AS WRITTEN: the badge beside the chart, shown for the last element's
      value. */
  function LatestBadge(data: seq<MeasurementHistory>, metric: Metric): (b: Badge)
    ensures b.value == LatestZScore(data, metric)
    ensures b.color == LabelColor(b.text)
    ensures b.text == ZScoreText(b.value)
  {
    var z := LatestZScore(data, metric);
    Badge(z, ZScoreColor(z), ZScoreText(z))
  }

  /** The history the child profile page passes to the chart, newest first. */
  function ProfileHistory(): seq<MeasurementHistory>
  {
    [ MeasurementHistory("2023-10-15", 38.0, 13.2, 95.6, -2.3, -1.8, -2.1),
      MeasurementHistory("2023-08-15", 36.0, 13.0, 94.8, -2.1, -1.7, -1.9),
      MeasurementHistory("2023-06-15", 34.0, 12.8, 94.0, -1.9, -1.6, -1.8),
      MeasurementHistory("2023-04-15", 32.0, 12.5, 93.1, -1.8, -1.5, -1.7),
      MeasurementHistory("2023-02-15", 30.0, 12.2, 92.2, -1.7, -1.4, -1.6),
      MeasurementHistory("2022-12-15", 28.0, 11.9, 91.3, -1.5, -1.3, -1.4) ]
  }

  /** On the profile page the as-written badge shows the December 2022 value
      -1.5 as "Moderate Risk", while the October 2023 value is -2.3, which is
      "Undernutrition". */
  lemma ProfileBadgeShowsOldest()
    ensures NewestFirst(ProfileHistory())
    ensures LatestZScore(ProfileHistory(), WeightForAge) == -1.5
    ensures LatestBadge(ProfileHistory(), WeightForAge).text == "Moderate Risk"
    ensures NewestZScore(ProfileHistory(), WeightForAge) == -2.3
    ensures BadgeFor(ProfileHistory(), WeightForAge).text == "Undernutrition"
  {
  }
}
