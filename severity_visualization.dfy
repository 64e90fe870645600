/** The severity gauge: a percentage and a bar colour looked up from the
    classification string, and the average of the three Z-scores computed by
    a left fold. */
module SeverityVisualization {
  import opened Tiers
  import Api

  function SeverityPercentage(classification: string): (p: nat)
    ensures p <= 100
    ensures p == 0 <==> ParseRisk(classification).None?
  {
    if classification == "low" then 25
    else if classification == "moderate" then 50
    else if classification == "high" then 75
    else if classification == "critical" then 95
    else 0
  }

  lemma PercentagePerTier()
    ensures SeverityPercentage(RiskName(Low)) == 25
    ensures SeverityPercentage(RiskName(Moderate)) == 50
    ensures SeverityPercentage(RiskName(High)) == 75
    ensures SeverityPercentage(RiskName(Critical)) == 95
  {
  }

  /** The percentage strictly increases with severity. */
  lemma PercentageStrictlyIncreases(r1: Risk, r2: Risk)
    requires Severity(r1) < Severity(r2)
    ensures 0 < SeverityPercentage(RiskName(r1)) < SeverityPercentage(RiskName(r2))
  {
  }

  function ProgressColor(classification: string): (c: string)
    ensures c == "bg-primary" <==> ParseRisk(classification).None?
  {
    if classification == "low" then "bg-green-500"
    else if classification == "moderate" then "bg-yellow-500"
    else if classification == "high" then "bg-orange-500"
    else if classification == "critical" then "bg-red-500"
    else "bg-primary"
  }

  /** Each tier has its own bar colour. */
  lemma ProgressColorsDistinct(r1: Risk, r2: Risk)
    requires r1 != r2
    ensures ProgressColor(RiskName(r1)) != ProgressColor(RiskName(r2))
  {
  }

  /** `scores.reduce((a, b) => a + b, acc)`: a left fold. */
  function Reduce(acc: real, scores: seq<real>): (r: real)
    ensures scores == [] ==> r == acc
    ensures (forall i :: 0 <= i < |scores| ==> scores[i] >= 0.0) ==> r >= acc
    decreases |scores|
  {
    if scores == [] then acc else Reduce(acc + scores[0], scores[1..])
  }

  /** The plain sum of a sequence, summed from the right. */
  function Sum(scores: seq<real>): real
  {
    if scores == [] then 0.0 else scores[0] + Sum(scores[1..])
  }

  /** Folding from the left adds the same total as summing from the right. */
  lemma {:induction false} ReduceIsSum(acc: real, scores: seq<real>)
    ensures Reduce(acc, scores) == acc + Sum(scores)
    decreases |scores|
  {
    if scores != [] {
      ReduceIsSum(acc + scores[0], scores[1..]);
    }
  }

  /** The displayed average, which over exact numbers is the average the
      analysis classifies, although the scores are added in another order. */
  function AverageZScore(z: Api.ZScores): (avg: real)
    ensures avg == Api.Mean(z)
  {
    var scores := [z.weightForAge, z.heightForAge, z.weightForHeight];
    ReduceIsSum(0.0, scores);
    assert scores[1..] == [z.heightForAge, z.weightForHeight];
    assert scores[1..][1..] == [z.weightForHeight];
    assert Sum(scores[1..][1..]) == z.weightForHeight;
    assert Sum(scores) == z.weightForAge + z.heightForAge + z.weightForHeight;
    Reduce(0.0, scores) / (|scores| as real)
  }
}
