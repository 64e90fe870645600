/** The prediction result panel: details (title, description, colours, icon)
    looked up from the classification with an "Unknown" default, and a text
    colour for each of the three Z-scores. */
module MalnutritionResultPanel {
  import opened JsValues
  import opened Tiers
  import Api

  datatype Icon = CheckCircle | AlertCircle | AlertTriangle | XCircle

  datatype Details = Details(
    title: string,
    description: string,
    color: string,
    textColor: string,
    icon: Option<Icon>)

  function TierTitle(r: Risk): string
  {
    match r
    case Low => "Low Risk"
    case Moderate => "Moderate Risk"
    case High => "High Risk"
    case Critical => "Critical Risk"
  }

  function TierDetails(r: Risk): (d: Details)
    ensures d.title == TierTitle(r) && d.icon.Some?
  {
    match r
    case Low =>
      Details("Low Risk", "Normal nutritional status with minimal concern.",
              "bg-green-100 border-green-200", "text-green-700", Some(CheckCircle))
    case Moderate =>
      Details("Moderate Risk", "Signs of mild to moderate malnutrition present.",
              "bg-yellow-100 border-yellow-200", "text-yellow-700", Some(AlertCircle))
    case High =>
      Details("High Risk", "Significant signs of malnutrition requiring intervention.",
              "bg-orange-100 border-orange-200", "text-orange-700", Some(AlertTriangle))
    case Critical =>
      Details("Critical Risk", "Severe malnutrition requiring immediate medical attention.",
              "bg-red-100 border-red-200", "text-red-700", Some(XCircle))
  }

  const UnknownDetails := Details("Unknown", "Classification data unavailable.",
                                  "bg-gray-100 border-gray-200", "text-gray-700", None)

  /** Total: any string that is not a tier name gets the "Unknown" details
      and no icon. */
  function ClassificationDetails(classification: string): (d: Details)
    ensures d.icon.None? <==> ParseRisk(classification).None?
    ensures ParseRisk(classification).None? ==> d.title == "Unknown"
    ensures ParseRisk(classification).Some? ==> d.title == TierTitle(ParseRisk(classification).value)
  {
    match ParseRisk(classification)
    case None => UnknownDetails
    case Some(r) => TierDetails(r)
  }

  /** The four tiers show "Low Risk", "Moderate Risk", "High Risk" and
      "Critical Risk", pairwise distinct and never "Unknown". */
  lemma TitlesOfTiers(r1: Risk, r2: Risk)
    ensures ClassificationDetails(RiskName(r1)).title == TierTitle(r1)
    ensures TierTitle(r1) != "Unknown"
    ensures r1 != r2 ==> TierTitle(r1) != TierTitle(r2)
  {
  }

  /** The text colour of one score: red below -2, yellow from -2 up to -1,
      green from -1. */
  function ScoreColor(v: real): (c: string)
    ensures c == "text-red-500" <==> v < -2.0
    ensures c == "text-yellow-500" <==> -2.0 <= v < -1.0
    ensures c == "text-green-500" <==> -1.0 <= v
  {
    if v < -2.0 then "text-red-500"
    else if v < -1.0 then "text-yellow-500"
    else "text-green-500"
  }

  datatype Panel = Panel(
    details: Details,
    weightForAgeColor: string,
    heightForAgeColor: string,
    weightForHeightColor: string)

  function ResultPanel(classification: string, z: Api.ZScores): (p: Panel)
    ensures p.details == ClassificationDetails(classification)
    ensures p.weightForAgeColor == ScoreColor(z.weightForAge)
    ensures p.heightForAgeColor == ScoreColor(z.heightForAge)
    ensures p.weightForHeightColor == ScoreColor(z.weightForHeight)
  {
    Panel(ClassificationDetails(classification),
          ScoreColor(z.weightForAge), ScoreColor(z.heightForAge), ScoreColor(z.weightForHeight))
  }

  /** Score colours depend on the scores alone, never on the classification. */
  lemma ScoreColorsIgnoreClassification(c1: string, c2: string, z: Api.ZScores)
    ensures var p1, p2 := ResultPanel(c1, z), ResultPanel(c2, z);
      p1.weightForAgeColor == p2.weightForAgeColor
      && p1.heightForAgeColor == p2.heightForAgeColor
      && p1.weightForHeightColor == p2.weightForHeightColor
  {
  }
}
