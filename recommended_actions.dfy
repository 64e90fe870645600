/** The recommended-actions card: a bundle of title, description, actions and
    nutritional advice looked up from the classification, which is undefined
    for anything but the four tiers (the card then renders nothing), and the
    critical-only alert variant and facilities list. */
module RecommendedActions {
  import opened JsValues
  import opened Tiers

  datatype Bundle = Bundle(
    title: string,
    description: string,
    actions: seq<string>,
    nutritionalAdvice: seq<string>)

  function Title(r: Risk): string
  {
    match r
    case Low => "Continue Healthy Growth"
    case Moderate => "Increased Monitoring Required"
    case High => "Urgent Intervention Needed"
    case Critical => "Emergency Medical Care"
  }

  function Description(r: Risk): string
  {
    match r
    case Low => "Maintain current nutritional practices with regular monitoring."
    case Moderate => "Additional nutritional support and closer monitoring needed."
    case High => "Immediate nutritional intervention and medical assessment required."
    case Critical => "Immediate hospitalization may be required for intensive care."
  }

  function Actions(r: Risk): (a: seq<string>)
    ensures |a| == 5
  {
    match r
    case Low =>
      [ "Continue balanced diet with age-appropriate portions",
        "Regular physical activity and play",
        "Maintain good hygiene practices",
        "Schedule routine check-ups every 6 months",
        "Monitor growth using growth charts" ]
    case Moderate =>
      [ "Increase feeding frequency",
        "Add nutrient-dense foods to diet",
        "Monitor weight weekly",
        "Schedule follow-up in 1 month",
        "Consider micronutrient supplementation" ]
    case High =>
      [ "Immediate referral to nutritionist",
        "Begin supplementary feeding program",
        "Weekly weight monitoring",
        "Medical examination for underlying conditions",
        "Develop intensive feeding plan" ]
    case Critical =>
      [ "Immediate medical evaluation",
        "Possible hospitalization",
        "Start therapeutic feeding",
        "Daily monitoring of vital signs",
        "Treatment of complications" ]
  }

  function NutritionalAdvice(r: Risk): (a: seq<string>)
    ensures |a| == 4
  {
    match r
    case Low =>
      [ "Ensure diverse food groups in daily meals",
        "Include fruits and vegetables daily",
        "Provide adequate protein sources",
        "Continue age-appropriate feeding practices" ]
    case Moderate =>
      [ "Add additional protein-rich foods",
        "Include energy-dense foods in meals",
        "Ensure regular meal times",
        "Add healthy snacks between meals" ]
    case High =>
      [ "Start therapeutic feeding as prescribed",
        "Implement catch-up growth diet plan",
        "Use fortified food supplements",
        "Monitor food intake daily" ]
    case Critical =>
      [ "Follow therapeutic feeding protocol",
        "Careful refeeding to prevent complications",
        "Specialized medical nutrition therapy",
        "Monitoring for refeeding syndrome" ]
  }

  /** The bundle of one tier. */
  function BundleFor(r: Risk): (b: Bundle)
    ensures |b.actions| == 5 && |b.nutritionalAdvice| == 4
  {
    Bundle(Title(r), Description(r), Actions(r), NutritionalAdvice(r))
  }

  /** The switch on the classification string, which has no default branch
      and so yields undefined (None) for any other value. */
  function GetRecommendations(classification: string): (b: Option<Bundle>)
    ensures b.Some? <==> ParseRisk(classification).Some?
    ensures b.Some? ==> |b.value.actions| == 5 && |b.value.nutritionalAdvice| == 4
  {
    match ParseRisk(classification)
    case None => None
    case Some(r) => Some(BundleFor(r))
  }

  /** Each tier's name selects that tier's bundle. */
  lemma RecommendationsOfTier(r: Risk)
    ensures GetRecommendations(RiskName(r)) == Some(BundleFor(r))
  {
    ParseRiskName(r);
  }

  /** The four tiers have pairwise distinct titles. */
  lemma TitlesDistinct(r1: Risk, r2: Risk)
    requires r1 != r2
    ensures BundleFor(r1).title != BundleFor(r2).title
  {
    assert Title(r1)[0] != Title(r2)[0];
  }

  /** What the card shows. */
  datatype Card = Card(alertVariant: string, bundle: Bundle, showFacilities: bool)

  /** The rendered card, or None where the component returns null. */
  function Render(classification: string): (c: Option<Card>)
    ensures c.None? <==> ParseRisk(classification).None?
    ensures c.Some? ==> Some(c.value.bundle) == GetRecommendations(classification)
    ensures c.Some? ==> (c.value.alertVariant == "destructive" <==> classification == "critical")
    ensures c.Some? ==> (c.value.showFacilities <==> classification == "critical")
  {
    match GetRecommendations(classification)
    case None => None
    case Some(b) =>
      Some(Card(
        if classification == "critical" then "destructive" else "default",
        b,
        classification == "critical"))
  }
}
