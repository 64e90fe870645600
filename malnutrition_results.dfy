/** The results page, which renders the result panel, the severity gauge and
    the recommended-actions card from a fixed record rather than from an
    analysis. */
module MalnutritionResults {
  import opened JsValues
  import opened Tiers
  import Api
  import SeverityVisualization
  import MalnutritionResultPanel

  /** The page's fixed classification and scores. */
  const Classification := "moderate"
  const Scores := Api.ZScores(-1.5, -1.9, -1.8)

  /** The page shows "Moderate Risk", while its own scores average about
      -1.73, which the classifier and the gauge's average both put in the
      high tier. */
  lemma ShownTierDisagreesWithScores()
    ensures ParseRisk(Classification) == Some(Moderate)
    ensures MalnutritionResultPanel.ResultPanel(Classification, Scores).details.title == "Moderate Risk"
    ensures Api.Classify(Scores) == High
    ensures Api.ClassifyAverage(SeverityVisualization.AverageZScore(Scores)) == High
  {
  }
}
