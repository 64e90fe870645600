# Nutrition rules of the child growth dashboard

This project models the rules of a child growth monitoring dashboard, written in
Dafny. The rules are:

- the risk classifier of the API service, which averages a child's three Z-scores
  (height-for-age, weight-for-height, weight-for-age) and maps the average to one
  of four risk tiers (low, moderate, high, critical) with a fixed probability;
- the measurement form's arithmetic: fields parsed with a zero default, height in
  metres, BMI and a weight-to-height ratio;
- the per-score colour bands and labels of the growth chart, the result panel,
  the guidance card and the printable report;
- the lookups from a risk tier or a three-tier status (normal, warning, danger) to
  percentages, colours, titles, recommendation bundles and status texts;
- the dashboard's case-insensitive name search, its urgent and monitoring counts,
  and their banners and plural forms.

Every rule is a pure function, so the model is datatypes, functions and lemmas.
Each modelled component and page has its own module. `Dashboard` covers both
dashboard pages, `src/pages/Index.jsx` and `src/pages/Index.tsx`.
`MalnutritionResults` holds only the fixed record the results page renders.
Three modules
correspond to no single source file. `Tiers` holds the two severity scales,
with their wire names and parsers. `JsValues` holds the two JavaScript value
shapes the rules depend on:

- `Option`, for a form field that does not parse;
- `Num`, for a division that yields Infinity or NaN.

The third, `CrossFile`, states how the components agree with each other, and
what the panels would show if they were given an analysis result. Components
receive the classification and the status as strings and switch on them. The model does
the same, so the default branches stay reachable (unknown classification, status
outside the three values).

Numbers are exact reals. The boundary properties (an average of exactly -2 is
high, of exactly -1 is low) hold for exact arithmetic; "## Left out" gives an
input where double rounding moves the average across a cutoff.

Facts about the code the model keeps:

- An average of exactly -2.0 is `high`, because the cutoffs are strict `<`
  tests tried from the most severe down (src/lib/api.ts:306-314).
- Nothing guards against a zero height. BMI and the ratio become Infinity or NaN
  and are submitted as they are (src/components/MeasurementForm.jsx:43-59).
- No Z-score is estimated. The three entered scores, zero when left blank, go
  to the classifier unchanged (src/components/MeasurementForm.jsx:54-56),
  although each Z-score field's placeholder reads "Enter Z-score or leave for
  calculation" (src/components/MeasurementForm.jsx:142, 147, 152).
- An unknown classification is not an error. The recommended-actions card renders
  nothing. The result panel shows "Unknown". The gauge shows 0%.
- The code has no function from risk tier to status. `Api.StatusOfRisk` states a
  crosswalk: low to normal, moderate to warning, high and critical to danger.
  The demo records pair low with normal, moderate with warning and critical with
  danger. No record is high, so sending high to danger is the model's own choice,
  which the records neither confirm nor contradict.

## Model

| member | source | states |
|---|---|---|
| `Tiers.Severity` | src/lib/api.ts:283 | the severity order of the four tiers, from 0 up to 3 |
| `Tiers.SeverityIsOrder` | src/lib/api.ts:283 | distinct tiers have distinct severities |
| `Tiers.ParseRisk` | src/lib/api.ts:283 | a classification string is a tier exactly when it is one of the four wire names |
| `Tiers.ParseRiskName` | src/lib/api.ts:283 | every tier's wire name parses back to that tier |
| `Tiers.ParseStatus` | src/lib/api.ts:34 | a status string is recognised exactly when it is "normal", "warning" or "danger" |
| `Tiers.ParseStatusName` | src/lib/api.ts:34 | every status's name parses back to that status |
| `JsValues.OrZero` | src/components/MeasurementForm.jsx:43-56 | a field that does not parse reads as 0; a parsed number is kept |
| `JsValues.Divide` | src/components/MeasurementForm.jsx:58-59 | the quotient is finite exactly when the divisor is non-zero, and then times the divisor gives the dividend; a zero divisor gives +Infinity, -Infinity or NaN by the dividend's sign |
| `Api.ClassifyAverage` | src/lib/api.ts:303-315 | below -2 is critical, [-2, -1.5) high, [-1.5, -1) moderate, -1 and above low (each an if-and-only-if) |
| `Api.Probability` | src/lib/api.ts:303-315 | each tier's probability lies strictly between 0 and 1 |
| `Api.Mean` | src/lib/api.ts:297-301 | the average lies between the smallest and the largest of the three scores, and equals their common value when they agree |
| `Api.Classify` | src/lib/api.ts:297-315 | three scores all at or above -1 classify low; three all below -2 classify critical |
| `Api.ExactMeanOnCutoff` | src/lib/api.ts:297-311 | over exact numbers, scores -2.7, -2.6 and -0.7 average exactly -2 and classify high |
| `Api.Analyze` | src/lib/api.ts:282-325 | the returned scores are the input scores; by the sum of the three scores, the tier and probability are critical/0.9, high/0.7, moderate/0.4 or low/0.1 |
| `Api.AnalyzeClassifies` | src/lib/api.ts:297-319 | the tier is the classification of the mean of the returned scores, and the probability is that tier's |
| `Api.ClassifyIgnoresOrder` | src/lib/api.ts:297-301 | the tier is the same for all six orderings of the three scores |
| `Api.BoundariesGoToMilderTier` | src/lib/api.ts:306-314 | -2 is high, -1.5 is moderate, -1 is low |
| `Api.ClassifyAverageMonotone` | src/lib/api.ts:303-315 | a lower average never gets a less severe tier |
| `Api.ProbabilityMonotone` | src/lib/api.ts:303-315 | the probability strictly increases with severity |
| `Api.StatusOfRisk` | src/lib/api.ts:106-170 | normal exactly for low, warning exactly for moderate, danger exactly for high and critical |
| `Api.FixturesClassify` | src/lib/api.ts:116-166 | Sarah Johnson classifies low, Michael Osei moderate, Ama Mensah critical |
| `Api.FixturesAgreeWithStatus` | src/lib/api.ts:106-170 | each demo child's stored status is the status of its measurement's tier |
| `MeasurementForm.ToMeasurementData` | src/components/MeasurementForm.jsx:43-61 | height, weight and age are the parsed fields, zero when blank; height in metres times 100 is the height; the ratio is weight over height and BMI is weight over height in metres squared, as JavaScript divisions |
| `MeasurementForm.DerivedMetricsRelate` | src/components/MeasurementForm.jsx:45-59 | for a non-zero height both ratios are finite, BMI times the squared height in metres is the weight, and BMI is 10000 times the ratio over the height |
| `MeasurementForm.PositiveInputsGivePositiveMetrics` | src/components/MeasurementForm.jsx:58-59 | a positive height and weight give a positive BMI and ratio |
| `MeasurementForm.ZeroHeightIsNotGuarded` | src/components/MeasurementForm.jsx:43-59 | a zero or blank height makes both ratios non-finite: Infinity for a positive weight, NaN for a zero one |
| `MeasurementForm.ZScoresPassThrough` | src/components/MeasurementForm.jsx:54-56 | the analysis sees the entered Z-scores (0 if blank) and is unaffected by height, weight or age |
| `GrowthChart.ZScoreColor` | src/components/GrowthChart.tsx:42-46 | secondary exactly on [-1, 1], warning exactly on [-2, -1) or (1, 2], destructive exactly beyond magnitude 2 |
| `GrowthChart.ZScoreText` | src/components/GrowthChart.tsx:48-53 | Normal on [-1, 1], Moderate Risk on [-2, -1) or (1, 2], Undernutrition below -2, Overweight above 2, each an if-and-only-if, so the labels partition the reals |
| `GrowthChart.ColorAgreesWithText` | src/components/GrowthChart.tsx:42-53 | the badge colour is the colour of its label |
| `GrowthChart.BandsSymmetric` | src/components/GrowthChart.tsx:42-53 | the colour is symmetric about 0; labels are symmetric up to magnitude 2, beyond which Undernutrition and Overweight swap |
| `GrowthChart.LatestZScore` | src/components/GrowthChart.tsx:55 | as written: 0 for no data, otherwise the selected metric of the last entry |
| `GrowthChart.LatestZScoreReadsOldest` | src/components/GrowthChart.tsx:55 | on a newest-first history the as-written value comes from an entry of minimal age |
| `GrowthChart.NewestZScore` | src/components/GrowthChart.tsx:55 | corrected: on a newest-first history, the value of an entry of maximal age (0 for no data) |
| `GrowthChart.LatestBadge` | src/components/GrowthChart.tsx:94-98 | as written: the badge shows the last element's value, labelled by its band and coloured by its label |
| `GrowthChart.BadgeFor` | src/components/GrowthChart.tsx:94-98 | corrected: on a newest-first history the badge shows the most recent value, labelled by its band and coloured by its label |
| `GrowthChart.ProfileBadgeShowsOldest` | src/pages/ChildProfile.tsx:20-81 | on the profile's history the as-written badge (`LatestBadge`) shows -1.5 "Moderate Risk" while the newest value is -2.3 "Undernutrition" |
| `SeverityVisualization.SeverityPercentage` | src/components/SeverityVisualization.tsx:22-35 | at most 100, and 0 exactly for an unrecognised classification |
| `SeverityVisualization.PercentagePerTier` | src/components/SeverityVisualization.tsx:22-31 | low 25, moderate 50, high 75, critical 95 |
| `SeverityVisualization.PercentageStrictlyIncreases` | src/components/SeverityVisualization.tsx:22-35 | the percentage is positive and strictly increases with severity |
| `SeverityVisualization.ProgressColor` | src/components/SeverityVisualization.tsx:38-51 | "bg-primary" exactly for an unrecognised classification |
| `SeverityVisualization.ProgressColorsDistinct` | src/components/SeverityVisualization.tsx:38-47 | the four tiers have pairwise distinct colours |
| `SeverityVisualization.Reduce` | src/components/SeverityVisualization.tsx:56 | `reduce` over no scores returns the accumulator; over non-negative scores it never falls below the accumulator |
| `SeverityVisualization.ReduceIsSum` | src/components/SeverityVisualization.tsx:56 | the left-fold `reduce` from an accumulator adds the accumulator to the sum of the sequence |
| `SeverityVisualization.AverageZScore` | src/components/SeverityVisualization.tsx:54-58 | over exact reals, the gauge's reduce-sum over 3 is the classifier's mean, although it adds the scores in another order |
| `RecommendedActions.Actions` | src/components/RecommendedActions.jsx:15-75 | every tier has exactly 5 actions |
| `RecommendedActions.NutritionalAdvice` | src/components/RecommendedActions.jsx:22-81 | every tier has exactly 4 advice items |
| `RecommendedActions.BundleFor` | src/components/RecommendedActions.jsx:11-82 | each tier's bundle has 5 actions and 4 advice items |
| `RecommendedActions.GetRecommendations` | src/components/RecommendedActions.jsx:9-84 | a bundle (5 actions, 4 advice items) exactly for the four tier names, undefined otherwise |
| `RecommendedActions.RecommendationsOfTier` | src/components/RecommendedActions.jsx:9-84 | each tier's name selects that tier's bundle |
| `RecommendedActions.TitlesDistinct` | src/components/RecommendedActions.jsx:13-67 | the four titles are pairwise distinct |
| `RecommendedActions.Render` | src/components/RecommendedActions.jsx:86-135 | null exactly for an unrecognised classification; otherwise the tier's bundle, a destructive alert exactly for "critical" and the facilities section exactly for "critical" |
| `MalnutritionResultPanel.TierDetails` | src/components/MalnutritionResultPanel.tsx:29-60 | each tier's details carry its title and an icon |
| `MalnutritionResultPanel.ClassificationDetails` | src/components/MalnutritionResultPanel.tsx:27-70 | total: no icon and title "Unknown" exactly for an unrecognised classification, else the tier's title |
| `MalnutritionResultPanel.TitlesOfTiers` | src/components/MalnutritionResultPanel.tsx:29-60 | each tier's name shows its title; titles are pairwise distinct and never "Unknown" |
| `MalnutritionResultPanel.ScoreColor` | src/components/MalnutritionResultPanel.tsx:98-102 | red exactly below -2, yellow exactly on [-2, -1), green exactly from -1 |
| `MalnutritionResultPanel.ResultPanel` | src/components/MalnutritionResultPanel.tsx:72-130 | the details come from the classification; each of the three scores is coloured by its own value with the same rule |
| `MalnutritionResultPanel.ScoreColorsIgnoreClassification` | src/components/MalnutritionResultPanel.tsx:98-130 | two panels with the same scores and any classifications show the same score colours |
| `NutritionGuidance.GuidanceTier` | src/components/NutritionGuidance.tsx:22-30 | danger exactly for "danger", warning exactly for "warning", normal for anything else |
| `NutritionGuidance.CausesOf` | src/components/NutritionGuidance.tsx:42-71 | every tier lists exactly 6 causes |
| `NutritionGuidance.RecommendationsOf` | src/components/NutritionGuidance.tsx:73-102 | every tier lists exactly 6 recommendations |
| `NutritionGuidance.NutritionCategory` | src/components/NutritionGuidance.tsx:22-30 | "Severe Malnutrition" exactly for "danger", "Moderate Malnutrition Risk" exactly for "warning", "Normal Growth" exactly otherwise |
| `NutritionGuidance.Explanation` | src/components/NutritionGuidance.tsx:32-40 | the danger explanation exactly for "danger", the warning explanation exactly for "warning", the normal explanation exactly otherwise |
| `NutritionGuidance.Causes` | src/components/NutritionGuidance.tsx:42-71 | 6 causes for every status |
| `NutritionGuidance.Recommendations` | src/components/NutritionGuidance.tsx:73-102 | 6 recommendations for every status |
| `NutritionGuidance.GettersAgreeOnTier` | src/components/NutritionGuidance.tsx:22-102 | category, explanation, causes and recommendations always show the same tier's content |
| `NutritionGuidance.ShowFacilities` | src/components/NutritionGuidance.tsx:184 | the facilities alert appears exactly when the category is "Severe Malnutrition" |
| `NutritionGuidance.ScoreBackground` | src/components/NutritionGuidance.tsx:126-130 | destructive exactly below -2, warning exactly on [-2, -1), secondary exactly from -1 |
| `NutritionGuidance.ScoreLabel` | src/components/NutritionGuidance.tsx:133-163 | deficit label below -2, excess label above 2, normal label in between, for each indicator |
| `NutritionGuidance.LabelsDistinct` | src/components/NutritionGuidance.tsx:134-162 | an indicator's three labels are pairwise distinct |
| `NutritionGuidance.BackgroundAndLabelDisagree` | src/components/NutritionGuidance.tsx:126-137 | above 2 the excess label sits on the neutral background; on [-2, -1) the normal label sits on the warning background |
| `ChildReport.StatusText` | src/components/ChildReport.tsx:39-48 | the critical text exactly for "danger", the moderate text exactly for "warning", the normal text exactly otherwise |
| `ChildReport.CellColor` | src/components/ChildReport.tsx:116-135 | destructive exactly below -2, amber exactly on [-2, -1), green exactly from -1 |
| `ChildReport.GrowthTrend` | src/components/ChildReport.tsx:160-166 | Improving exactly when there are 2+ entries and the first weight-for-age exceeds the second; Declining exactly when it does not; insufficient data exactly for 0 or 1 entries |
| `ChildReport.SteadyCountsAsDeclining` | src/components/ChildReport.tsx:162-164 | equal weight-for-age in the first two entries reads "Declining" |
| `ChildReport.AssessmentSummary` | src/components/ChildReport.tsx:151-166 | needs a non-empty history; reports the first entry's weight, height and scores and the trend |
| `ChildReport.SummaryShowsNewest` | src/components/ChildReport.tsx:151-157 | on a newest-first history the "Latest Measurements" summary reads an entry of maximal age, and its weight-for-age is the corrected growth-chart badge's value |
| `ChildReport.ProfileSummaryShowsNewest` | src/pages/ChildProfile.tsx:20-81 | on the profile's history the summary shows weight-for-age -2.3 while the as-written badge shows -1.5 |
| `ChildReport.RecommendationLists` | src/components/ChildReport.tsx:174-199 | exactly the danger, warning or normal list for those statuses, and no list for any other string |
| `ChildReport.OneListPerStatus` | src/components/ChildReport.tsx:174-199 | each of the three statuses renders one list, of 5, 5 and 4 items |
| `Dashboard.LowerChar` | src/pages/Index.jsx:34 | upper-case ASCII letters map to lower case, every other character to itself |
| `Dashboard.ToLower` | src/pages/Index.jsx:34 | same length, folded character by character |
| `Dashboard.Includes` | src/pages/Index.jsx:34 | `includes`: the empty term is always found, and a found term is no longer than the name |
| `Dashboard.IncludesIffOccurs` | src/pages/Index.jsx:34 | the substring search succeeds exactly when the term occurs at some position |
| `Dashboard.IncludesEmpty` | src/pages/Index.jsx:34 | the empty term is found in every name |
| `Dashboard.MissingCharNotIncluded` | src/pages/Index.jsx:34 | a term with a character the name lacks is not found |
| `Dashboard.FilterChildren` | src/pages/Index.jsx:33-35 | keeps no more children than given, and only children whose lowercased name contains the lowercased term |
| `Dashboard.FilterKeepsMatches` | src/pages/Index.jsx:33-35 | every matching child is kept |
| `Dashboard.FilterAppend` | src/pages/Index.jsx:33-35 | filtering distributes over concatenation, so the order of the children is kept |
| `Dashboard.EmptyTermKeepsAll` | src/pages/Index.jsx:33-35 | an empty search returns the list unchanged |
| `Dashboard.CountStatus` | src/pages/Index.jsx:37-38 | a status count never exceeds the list length |
| `Dashboard.UrgentAndWarningBounded` | src/pages/Index.jsx:37-38 | urgent plus monitoring counts never exceed the list length |
| `Dashboard.FilterLowersCounts` | src/pages/Index.jsx:37-38 | a count over the filtered list is at most the count over all children |
| `Dashboard.CountAppend` | src/pages/Index.jsx:37-38 | counts add up over concatenation |
| `Dashboard.UrgentBanner` | src/pages/Index.jsx:77-83 | shown exactly for a positive count, carrying the count, with "child requires" exactly for 1 and "children require" exactly above 1 |
| `Dashboard.WarningBanner` | src/pages/Index.jsx:84-90 | shown exactly for a positive count, carrying the count, with "child needs" exactly for 1 and "children need" exactly above 1 |
| `Dashboard.ShowingNoun` | src/pages/Index.jsx:96 | "child" exactly for 1, "children" otherwise |
| `Dashboard.EmptyStateMessage` | src/pages/Index.jsx:140-142 | for a non-empty term the message quotes the term, otherwise it is the start message; it ends in a quote exactly when the term is non-empty |
| `Dashboard.IndexView` | src/pages/Index.jsx:33-142 | shows the filtered children; counts are over the filtered list, and urgent plus monitoring count is at most the shown count, itself at most the total; banners and nouns as above; an empty state exactly when nothing is shown |
| `Dashboard.ApiChildrenOnIndex` | src/pages/Index.jsx:33-38 | with the API's three demo children and no search: all 3 shown, 1 urgent, 1 to monitor, plural noun, no empty state |
| `Dashboard.MockIndexView` | src/pages/Index.tsx:58-112 | the same filter; counts over the whole demo list are 1 urgent and 1 to monitor whatever the search, so both banners are always shown in the singular |
| `Dashboard.FilterNoMatches` | src/pages/Index.jsx:33-35 | a search that matches no child shows no child |
| `Dashboard.MockBannersIgnoreSearch` | src/pages/Index.tsx:58-63 | a search longer than every name shows no child, yet both banners stay |
| `CrossFile.PanelsBandAlike` | src/components/MalnutritionResultPanel.tsx:98-130 | the result panel, the guidance tiles and the report cells put every score in the same one of three bands |
| `CrossFile.GrowthChartDiffersAboveOne` | src/components/GrowthChart.tsx:42-46 | above 1 the panels show green while the growth chart warns |
| `CrossFile.GrowthChartAgreesBelowOne` | src/components/GrowthChart.tsx:42-46 | up to 1 the chart's neutral badge appears exactly where the panels show green |
| `CrossFile.AnalysisAlwaysRecognised` | src/components/RecommendedActions.jsx:86-88 | if an analysis result were passed to the panels (no page does this), the actions card would always render, the panel would never show "Unknown", and the gauge would never show 0% or the default colour |
| `CrossFile.GaugeAverageMatchesAnalysis` | src/components/SeverityVisualization.tsx:54-58 | over exact reals, if the analysis' returned scores were passed to the gauge (no page does this), their average would classify to the reported tier |
| `MalnutritionResults.ShownTierDisagreesWithScores` | src/pages/MalnutritionResults.tsx:22-39 | the results page shows the fixed classification "moderate" ("Moderate Risk"), while its own fixed scores classify high, by the classifier and by the gauge's average |
| `CrossFile.StatusTextsAgree` | src/components/ChildReport.tsx:39-48 | the report's status text and the guidance category pick the same tier for every status |
| `CrossFile.CrosswalkStatusRendersOneList` | src/components/ChildReport.tsx:174-199 | a status derived from a tier renders one report list, and the facilities alert exactly for high and critical |

## Left out

- The API service's network plumbing (`submitMeasurement`, `getChildById`, `addMeasurementForChild`, logging, error wrapping, `Date.now()` ids): it returns fixed values and has no logic. The demo records of `getAllChildren` are modelled as `Api.AllChildren`.
- React state, hooks, rendering, toasts, dialogs, printing and the asynchronous submit flow. The loading state of the JavaScript dashboard is not modelled: `Dashboard.IndexView` is the page once data has loaded.
- Number and date formatting (`toFixed`, `toLocaleDateString`) and the count digits in banner titles. A banner carries the count and the words after it.
- `Api.Analyze`: the average is exact, not a double. For height-for-age -2.7, weight-for-height -2.6 and weight-for-age -0.7, double arithmetic gives an average of -2.0000000000000004, which the code classifies critical. The exact average is -2, which the model classifies high (`Api.ExactMeanOnCutoff`). Rounding can move any average that lies on or next to a cutoff across it.
- `SeverityVisualization.AverageZScore` / `CrossFile.GaugeAverageMatchesAnalysis`: hold over exact reals only. The gauge adds `[wfa, hfa, wfh]` from 0, while the classifier adds `hfa + wfh + wfa`. For height-for-age -2.7, weight-for-height -2.6 and weight-for-age -0.7, double arithmetic gives the gauge an average of exactly -2 (high), and the classifier -2.0000000000000004 (critical).
- `JsValues.Divide`: does not model floating-point rounding, overflow to Infinity or a negative-zero divisor. Reals are exact. The modelled divisors are a height parsed with `|| 0`, or its square, so they are never negative zero.
- `JsValues.OrZero`: `parseFloat` itself is not modelled. A field is given as already parsed (`Some`) or unparseable (`None`).
- `Dashboard.LowerChar`: folds only ASCII letters, where `toLowerCase` folds all of Unicode.
- Z-score estimation from age, height and weight: the code has none.
- The path from the analysis to the result pages. The form computes an analysis and discards it (src/components/MeasurementForm.jsx:77). The results page renders fixed data (src/pages/MalnutritionResults.tsx:22-39, 97-111), so `CrossFile.AnalysisAlwaysRecognised` and `CrossFile.GaugeAverageMatchesAnalysis` describe a connection the code does not make. On that page the shown tier, "moderate", is not the tier of the page's own scores, which is high (`MalnutritionResults.ShownTierDisagreesWithScores`).
- MUAC and the photo: they are only displayed or uploaded.
- Auth, navigation, routing, the header's scroll listener, the resources page's fixed list and the icon/class lookups of the child card, alert banner and profile page. They are status lookups or UI without logic.

## Findings

| source | as written | input that shows it | evidently intended | confidence | as-written member | corrected member |
|---|---|---|---|---|---|---|
| src/components/GrowthChart.tsx:55 | the badge shows the selected metric of the last element of the history | the profile page's history, listed newest first (src/pages/ChildProfile.tsx:20-81): the badge shows -1.5 "Moderate Risk" from December 2022, while the October 2023 value is -2.3 "Undernutrition" | the badge shows the most recent measurement, which leads a newest-first history, as the report's summary reads it (`ChildReport.SummaryShowsNewest`) | medium; not executed | `GrowthChart.LatestZScore` and `GrowthChart.LatestBadge` (shown by `GrowthChart.ProfileBadgeShowsOldest`) | `GrowthChart.NewestZScore` (used by `GrowthChart.BadgeFor`) |
