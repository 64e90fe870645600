/** Properties that relate the components to each other: the score banding
    repeated in three panels, what the panels would show if they were given
    an analysis result, and the status texts of the two status-driven
    components. No page passes an analysis result to the panels: the form
    discards it, and the results page renders fixed data. */
module CrossFile {
  import opened Tiers
  import Api
  import GrowthChart
  import SeverityVisualization
  import RecommendedActions
  import MalnutritionResultPanel
  import NutritionGuidance
  import ChildReport

  /** The result panel, the guidance tiles and the report cells cut a score
      at the same two points, -2 and -1. */
  lemma PanelsBandAlike(v: real)
    ensures MalnutritionResultPanel.ScoreColor(v) == "text-red-500"
        <==> NutritionGuidance.ScoreBackground(v) == "bg-destructive/20"
    ensures NutritionGuidance.ScoreBackground(v) == "bg-destructive/20"
        <==> ChildReport.CellColor(v) == "text-destructive"
    ensures MalnutritionResultPanel.ScoreColor(v) == "text-yellow-500"
        <==> NutritionGuidance.ScoreBackground(v) == "bg-warning/20"
    ensures NutritionGuidance.ScoreBackground(v) == "bg-warning/20"
        <==> ChildReport.CellColor(v) == "text-amber-500"
    ensures MalnutritionResultPanel.ScoreColor(v) == "text-green-500"
        <==> ChildReport.CellColor(v) == "text-green-600"
  {
  }

  /** The growth chart bands symmetrically and so disagrees with the panels
      on both sides of zero: above 1 it leaves its neutral badge where the
      panels show green, between 1 and 2 it shows moderate risk, and above 2
      it shows the destructive badge. */
  lemma GrowthChartDiffersAboveOne(v: real)
    requires v > 1.0
    ensures MalnutritionResultPanel.ScoreColor(v) == "text-green-500"
    ensures GrowthChart.ZScoreColor(v) != GrowthChart.SecondaryBadge
    ensures v <= 2.0 ==> GrowthChart.ZScoreText(v) == "Moderate Risk"
    ensures v > 2.0 ==> GrowthChart.ZScoreColor(v) == GrowthChart.DestructiveBadge
  {
  }

  /** Up to 1, the growth chart's neutral badge appears exactly where the
      panels show green. */
  lemma GrowthChartAgreesBelowOne(v: real)
    requires v <= 1.0
    ensures GrowthChart.ZScoreColor(v) == GrowthChart.SecondaryBadge
        <==> MalnutritionResultPanel.ScoreColor(v) == "text-green-500"
  {
  }

  /** Every analysis result names one of the four tiers. Were it passed to
      the panels, the recommended-actions card would always render, the
      result panel would never say "Unknown", and the gauge would never fall
      to 0% or the default colour. */
  lemma AnalysisAlwaysRecognised(d: Api.MeasurementData)
    ensures var c := RiskName(Api.Analyze(d).classification);
      && RecommendedActions.Render(c).Some?
      && MalnutritionResultPanel.ClassificationDetails(c).title != "Unknown"
      && SeverityVisualization.SeverityPercentage(c) > 0
      && SeverityVisualization.ProgressColor(c) != "bg-primary"
  {
    var r := Api.Analyze(d).classification;
    ParseRiskName(r);
    MalnutritionResultPanel.TitlesOfTiers(r, r);
  }

  /** Were the analysis' returned scores passed to the gauge, its average
      would land in the tier the analysis reported. */
  lemma GaugeAverageMatchesAnalysis(d: Api.MeasurementData)
    ensures var a := Api.Analyze(d);
      Api.ClassifyAverage(SeverityVisualization.AverageZScore(a.zScores)) == a.classification
  {
  }

  /** The report's status text and the guidance category follow the same
      three-way test of the status. */
  lemma StatusTextsAgree(status: string)
    ensures ChildReport.StatusText(status) == "Critical Concern - Urgent Intervention Required"
        <==> NutritionGuidance.NutritionCategory(status) == "Severe Malnutrition"
    ensures ChildReport.StatusText(status) == "Moderate Concern - Close Monitoring Required"
        <==> NutritionGuidance.NutritionCategory(status) == "Moderate Malnutrition Risk"
    ensures ChildReport.StatusText(status) == "Normal Growth - Continue Regular Monitoring"
        <==> NutritionGuidance.NutritionCategory(status) == "Normal Growth"
  {
  }

  /** A child whose status comes from a tier through the crosswalk gets
      exactly one recommendation list in the report, with the facilities
      alert exactly for high and critical risk. */
  lemma CrosswalkStatusRendersOneList(r: Risk)
    ensures var status := StatusName(Api.StatusOfRisk(r));
      && |ChildReport.RecommendationLists(status)| == 1
      && (NutritionGuidance.ShowFacilities(status) <==> Severity(r) >= 2)
  {
  }
}
