/** The records exchanged with the API service, and the one piece of logic it
    holds: `analyzeMeasurements`, which averages the three Z-scores of a
    submitted measurement and maps the average to a risk tier with a fixed
    probability. The network plumbing around it is not modelled. */
module Api {
  import opened JsValues
  import opened Tiers

  /** What the measurement form submits. `bmi` and `whr` are divisions and so
      may be non-finite. */
  datatype MeasurementData = MeasurementData(
    childName: string,
    sex: string,
    age: real,
    height: real,
    weight: real,
    heightForAgeZ: real,
    weightForHeightZ: real,
    weightForAgeZ: real,
    heightM: real,
    bmi: Num,
    whr: Num)

  /** One stored measurement of a child's history. */
  datatype MeasurementHistory = MeasurementHistory(
    date: string,
    age: real,
    weight: real,
    height: real,
    weightForAge: real,
    heightForAge: real,
    weightForHeight: real)

  datatype ChildProfile = ChildProfile(
    id: string,
    name: string,
    age: real,
    gender: string,
    weight: real,
    height: real,
    lastMeasurement: string,
    status: string,
    measurements: seq<MeasurementHistory>)

  datatype ZScores = ZScores(heightForAge: real, weightForHeight: real, weightForAge: real)

  datatype Analysis = Analysis(classification: Risk, probability: real, zScores: ZScores)

  /** The three Z-score indicators a chart or panel can select. */
  datatype Metric = WeightForAge | HeightForAge | WeightForHeight

  function MetricValue(m: MeasurementHistory, metric: Metric): real
  {
    match metric
    case WeightForAge => m.weightForAge
    case HeightForAge => m.heightForAge
    case WeightForHeight => m.weightForHeight
  }

  function ScoresOf(m: MeasurementHistory): ZScores
  {
    ZScores(m.heightForAge, m.weightForHeight, m.weightForAge)
  }

  /** The average of the three scores: it lies between the smallest and the
      largest of them, and is their common value when they agree. */
  function Mean(z: ZScores): (m: real)
    ensures z.heightForAge <= m || z.weightForHeight <= m || z.weightForAge <= m
    ensures z.heightForAge >= m || z.weightForHeight >= m || z.weightForAge >= m
    ensures z.heightForAge == z.weightForHeight == z.weightForAge ==> m == z.heightForAge
  {
    (z.heightForAge + z.weightForHeight + z.weightForAge) / 3.0
  }

  /** The tier of an average Z-score. The cutoffs are strict, tried from the
      most severe down, so each boundary value falls in the milder tier. */
  function ClassifyAverage(avg: real): (r: Risk)
    ensures r == Critical <==> avg < -2.0
    ensures r == High <==> -2.0 <= avg < -1.5
    ensures r == Moderate <==> -1.5 <= avg < -1.0
    ensures r == Low <==> -1.0 <= avg
  {
    if avg < -2.0 then Critical
    else if avg < -1.5 then High
    else if avg < -1.0 then Moderate
    else Low
  }

  /** The fixed probability reported with each tier. */
  function Probability(r: Risk): (p: real)
    ensures 0.0 < p < 1.0
  {
    match r
    case Low => 0.1
    case Moderate => 0.4
    case High => 0.7
    case Critical => 0.9
  }

  /** `analyzeMeasurements` without its logging and error wrapper. */
  function Analyze(data: MeasurementData): (a: Analysis)
    ensures a.zScores == ZScores(data.heightForAgeZ, data.weightForHeightZ, data.weightForAgeZ)
    ensures var sum := data.heightForAgeZ + data.weightForHeightZ + data.weightForAgeZ;
      && (sum < -6.0 ==> a.classification == Critical && a.probability == 0.9)
      && (-6.0 <= sum < -4.5 ==> a.classification == High && a.probability == 0.7)
      && (-4.5 <= sum < -3.0 ==> a.classification == Moderate && a.probability == 0.4)
      && (-3.0 <= sum ==> a.classification == Low && a.probability == 0.1)
  {
    var scores := ZScores(data.heightForAgeZ, data.weightForHeightZ, data.weightForAgeZ);
    var tier := ClassifyAverage(Mean(scores));
    Analysis(tier, Probability(tier), scores)
  }

  /** The classification `Analyze` gives a Z-score set: three scores in the
      normal range are low risk, three below -2 are critical. */
  function Classify(z: ZScores): (r: Risk)
    ensures z.heightForAge >= -1.0 && z.weightForHeight >= -1.0 && z.weightForAge >= -1.0 ==> r == Low
    ensures z.heightForAge < -2.0 && z.weightForHeight < -2.0 && z.weightForAge < -2.0 ==> r == Critical
  {
    ClassifyAverage(Mean(z))
  }

  lemma AnalyzeClassifies(data: MeasurementData)
    ensures Analyze(data).classification == Classify(Analyze(data).zScores)
    ensures Analyze(data).probability == Probability(Analyze(data).classification)
  {
  }

  /** The average, and so the tier, does not depend on the order of the three
      scores. */
  lemma ClassifyIgnoresOrder(a: real, b: real, c: real)
    ensures Classify(ZScores(a, b, c)) == Classify(ZScores(a, c, b))
    ensures Classify(ZScores(a, b, c)) == Classify(ZScores(b, a, c))
    ensures Classify(ZScores(a, b, c)) == Classify(ZScores(b, c, a))
    ensures Classify(ZScores(a, b, c)) == Classify(ZScores(c, a, b))
    ensures Classify(ZScores(a, b, c)) == Classify(ZScores(c, b, a))
  {
  }

  lemma BoundariesGoToMilderTier()
    ensures ClassifyAverage(-2.0) == High
    ensures ClassifyAverage(-1.5) == Moderate
    ensures ClassifyAverage(-1.0) == Low
  {
  }

  /** Over exact numbers these scores average exactly -2, which is high risk.
      In double arithmetic their sum rounds to -6.000000000000001 and the
      average to -2.0000000000000004, which the code classifies critical. */
  lemma ExactMeanOnCutoff()
    ensures Mean(ZScores(-2.7, -2.6, -0.7)) == -2.0
    ensures Classify(ZScores(-2.7, -2.6, -0.7)) == High
  {
  }

  /** A lower average is never classified as less severe. */
  lemma ClassifyAverageMonotone(avg1: real, avg2: real)
    requires avg1 <= avg2
    ensures Severity(ClassifyAverage(avg1)) >= Severity(ClassifyAverage(avg2))
  {
  }

  /** The probability strictly increases with severity. */
  lemma ProbabilityMonotone(r1: Risk, r2: Risk)
    requires Severity(r1) < Severity(r2)
    ensures Probability(r1) < Probability(r2)
  {
  }

  /** The risk tier a child record's status corresponds to. The code has no
      such function. The demo records pair low with normal, moderate with
      warning and critical with danger; none is high, so sending high to
      danger is this model's choice, which the records neither confirm nor
      contradict. */
  function StatusOfRisk(r: Risk): (s: Status)
    ensures s == Normal <==> r == Low
    ensures s == Warning <==> r == Moderate
    ensures s == Danger <==> Severity(r) >= 2
  {
    match r
    case Low => Normal
    case Moderate => Warning
    case High => Danger
    case Critical => Danger
  }

  function SarahJohnson(): MeasurementHistory
  {
    MeasurementHistory("2023-08-15", 28.0, 11.5, 86.4, 0.2, 0.5, 0.1)
  }

  function MichaelOsei(): MeasurementHistory
  {
    MeasurementHistory("2023-09-05", 18.0, 8.1, 76.2, -1.8, -0.9, -1.6)
  }

  function AmaMensah(): MeasurementHistory
  {
    MeasurementHistory("2023-09-20", 12.0, 5.8, 65.1, -2.7, -1.1, -2.5)
  }

  /** The children `getAllChildren` returns. */
  function AllChildren(): seq<ChildProfile>
  {
    [ ChildProfile("child_1", "Sarah Johnson", 28.0, "female", 11.5, 86.4, "2023-08-15", "normal", [SarahJohnson()]),
      ChildProfile("child_2", "Michael Osei", 18.0, "male", 8.1, 76.2, "2023-09-05", "warning", [MichaelOsei()]),
      ChildProfile("child_3", "Ama Mensah", 12.0, "female", 5.8, 65.1, "2023-09-20", "danger", [AmaMensah()]) ]
  }

  lemma FixturesClassify()
    ensures Classify(ScoresOf(SarahJohnson())) == Low
    ensures Classify(ScoresOf(MichaelOsei())) == Moderate
    ensures Classify(ScoresOf(AmaMensah())) == Critical
  {
  }

  /** Each demo child's status is the status of the tier its measurement
      classifies to. */
  lemma FixturesAgreeWithStatus()
    ensures forall p :: p in AllChildren() ==>
      |p.measurements| == 1 &&
      StatusName(StatusOfRisk(Classify(ScoresOf(p.measurements[0])))) == p.status
  {
  }
}
