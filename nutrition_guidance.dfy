/** The nutrition guidance card on a child's profile: a category,
    explanation, causes and recommendations chosen by one three-way test of
    the status ("danger", then "warning", anything else counting as normal),
    and a background and a label for each Z-score. */
module NutritionGuidance {
  import opened Tiers
  import Api

  /** The three-way test every getter of the card applies to the status. */
  function GuidanceTier(status: string): (t: Status)
    ensures t == Danger <==> status == "danger"
    ensures t == Warning <==> status == "warning"
  {
    if status == "danger" then Danger else if status == "warning" then Warning else Normal
  }

  function CategoryOf(t: Status): string
  {
    match t
    case Danger => "Severe Malnutrition"
    case Warning => "Moderate Malnutrition Risk"
    case Normal => "Normal Growth"
  }

  const DangerExplanation := "The child shows significant signs of malnutrition that require immediate attention. Z-scores below -3 indicate severe acute malnutrition, which can lead to long-term health issues if not addressed quickly."
  const WarningExplanation := "The child shows signs of moderate malnutrition risk. Z-scores between -2 and -3 indicate moderate acute malnutrition, which requires intervention to prevent progression to severe malnutrition."
  const NormalExplanation := "The child is growing at a healthy rate within the expected range for their age and gender. Z-scores between -2 and +2 are considered within the normal range according to WHO standards."

  function ExplanationOf(t: Status): string
  {
    match t
    case Danger => DangerExplanation
    case Warning => WarningExplanation
    case Normal => NormalExplanation
  }

  function CausesOf(t: Status): (c: seq<string>)
    ensures |c| == 6
  {
    match t
    case Danger =>
      [ "Severe lack of adequate food intake over time",
        "Chronic illness affecting nutrient absorption",
        "Severe intestinal parasites or infections",
        "Inadequate feeding practices",
        "Food insecurity in household",
        "Underlying medical conditions" ]
    case Warning =>
      [ "Insufficient dietary diversity",
        "Recent illness affecting appetite",
        "Periodic food shortages",
        "Suboptimal breastfeeding or weaning practices",
        "Lack of access to nutritious foods",
        "Infectious diseases" ]
    case Normal =>
      [ "Adequate dietary intake",
        "Appropriate feeding practices",
        "Access to diverse nutritious foods",
        "Good health status with minimal infections",
        "Proper hygiene and sanitation",
        "Regular health monitoring" ]
  }

  function RecommendationsOf(t: Status): (r: seq<string>)
    ensures |r| == 6
  {
    match t
    case Danger =>
      [ "Seek immediate medical attention at a healthcare facility",
        "Therapeutic feeding programs (F-75, F-100, or RUTF as prescribed)",
        "Treatment of underlying infections and conditions",
        "Close monitoring by healthcare professionals",
        "Supplementation with essential micronutrients",
        "Gradual introduction of balanced family foods after stabilization" ]
    case Warning =>
      [ "Supplementary feeding programs with fortified foods",
        "Increased meal frequency and diversity",
        "Regular growth monitoring every 2-4 weeks",
        "Vitamin A, zinc, and iron supplementation as needed",
        "Deworming treatment if recommended",
        "Nutrition education for caregivers" ]
    case Normal =>
      [ "Continue with age-appropriate balanced diet",
        "Regular growth monitoring every 3-6 months",
        "Maintain breastfeeding (if age-appropriate) alongside diverse foods",
        "Ensure adequate protein, fruits, vegetables, and whole grains",
        "Continue routine health check-ups and immunizations",
        "Maintain good hygiene practices" ]
  }

  function NutritionCategory(status: string): (c: string)
    ensures c == "Severe Malnutrition" <==> status == "danger"
    ensures c == "Moderate Malnutrition Risk" <==> status == "warning"
    ensures c == "Normal Growth" <==> status != "danger" && status != "warning"
  {
    if status == "danger" then CategoryOf(Danger)
    else if status == "warning" then CategoryOf(Warning)
    else CategoryOf(Normal)
  }

  function Explanation(status: string): (e: string)
    ensures e == DangerExplanation <==> status == "danger"
    ensures e == WarningExplanation <==> status == "warning"
    ensures e == NormalExplanation <==> status != "danger" && status != "warning"
  {
    if status == "danger" then ExplanationOf(Danger)
    else if status == "warning" then ExplanationOf(Warning)
    else ExplanationOf(Normal)
  }

  function Causes(status: string): (c: seq<string>)
    ensures |c| == 6
  {
    if status == "danger" then CausesOf(Danger)
    else if status == "warning" then CausesOf(Warning)
    else CausesOf(Normal)
  }

  function Recommendations(status: string): (r: seq<string>)
    ensures |r| == 6
  {
    if status == "danger" then RecommendationsOf(Danger)
    else if status == "warning" then RecommendationsOf(Warning)
    else RecommendationsOf(Normal)
  }

  /** The four getters never mix tiers: whatever the status string, all of
      them show the content of the same one of the three tiers. */
  lemma GettersAgreeOnTier(status: string)
    ensures var t := GuidanceTier(status);
      && NutritionCategory(status) == CategoryOf(t)
      && Explanation(status) == ExplanationOf(t)
      && Causes(status) == CausesOf(t)
      && Recommendations(status) == RecommendationsOf(t)
  {
  }

  /** The facilities alert is shown for "danger" only. */
  function ShowFacilities(status: string): (show: bool)
    ensures show <==> NutritionCategory(status) == "Severe Malnutrition"
  {
    status == "danger"
  }

  /** The background of one score's tile. */
  function ScoreBackground(v: real): (b: string)
    ensures b == "bg-destructive/20" <==> v < -2.0
    ensures b == "bg-warning/20" <==> -2.0 <= v < -1.0
    ensures b == "bg-secondary/20" <==> -1.0 <= v
  {
    if v < -2.0 then "bg-destructive/20"
    else if v < -1.0 then "bg-warning/20"
    else "bg-secondary/20"
  }

  /** The deficit, excess and normal label of each indicator. */
  function DeficitLabel(m: Api.Metric): string
  {
    match m
    case WeightForAge => "Underweight"
    case HeightForAge => "Stunted growth"
    case WeightForHeight => "Wasted/Thin"
  }

  function ExcessLabel(m: Api.Metric): string
  {
    match m
    case WeightForAge => "Overweight"
    case HeightForAge => "Above average height"
    case WeightForHeight => "Possible obesity risk"
  }

  function NormalLabel(m: Api.Metric): string
  {
    match m
    case WeightForAge => "Normal weight for age"
    case HeightForAge => "Normal height for age"
    case WeightForHeight => "Proportionate weight for height"
  }

  function ScoreLabel(m: Api.Metric, v: real): (l: string)
    ensures v < -2.0 ==> l == DeficitLabel(m)
    ensures v > 2.0 ==> l == ExcessLabel(m)
    ensures -2.0 <= v <= 2.0 ==> l == NormalLabel(m)
  {
    if v < -2.0 then DeficitLabel(m)
    else if v > 2.0 then ExcessLabel(m)
    else NormalLabel(m)
  }

  /** The three labels of an indicator are distinct, so the label tells the
      band apart. */
  lemma LabelsDistinct(m: Api.Metric)
    ensures DeficitLabel(m) != ExcessLabel(m)
    ensures DeficitLabel(m) != NormalLabel(m)
    ensures ExcessLabel(m) != NormalLabel(m)
  {
  }

  /** Backgrounds and labels use different bands: a score above 2 carries the
      excess label on the neutral background, and a score in [-2, -1) the
      normal label on the warning background. */
  lemma BackgroundAndLabelDisagree(m: Api.Metric, v: real)
    ensures v > 2.0 ==> ScoreBackground(v) == "bg-secondary/20" && ScoreLabel(m, v) == ExcessLabel(m)
    ensures -2.0 <= v < -1.0 ==> ScoreBackground(v) == "bg-warning/20" && ScoreLabel(m, v) == NormalLabel(m)
  {
  }
}
