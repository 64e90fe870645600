/** The numeric part of the measurement form's submit handler: every numeric
    field is parsed with a zero default, height is converted to metres, and
    BMI and the weight-to-height ratio are derived. Nothing guards against a
    zero height, and the three Z-scores are copied as entered. */
module MeasurementForm {
  import opened JsValues
  import Api

  /** The submitted form fields; a numeric field is None when it is blank or
      does not parse as a number. */
  datatype FormValues = FormValues(
    childName: string,
    sex: string,
    age: Option<real>,
    height: Option<real>,
    weight: Option<real>,
    heightForAgeZ: Option<real>,
    weightForHeightZ: Option<real>,
    weightForAgeZ: Option<real>)

  /** The measurement record built from the form. */
  function ToMeasurementData(f: FormValues): (d: Api.MeasurementData)
    ensures d.height == OrZero(f.height) && d.weight == OrZero(f.weight) && d.age == OrZero(f.age)
    ensures d.heightM * 100.0 == d.height
    ensures d.whr == Divide(d.weight, d.height)
    ensures d.bmi == Divide(d.weight, d.heightM * d.heightM)
    ensures d.childName == f.childName && d.sex == f.sex
  {
    var height := OrZero(f.height);
    var weight := OrZero(f.weight);
    var heightInMeters := height / 100.0;
    Api.MeasurementData(
      f.childName,
      f.sex,
      OrZero(f.age),
      height,
      weight,
      OrZero(f.heightForAgeZ),
      OrZero(f.weightForHeightZ),
      OrZero(f.weightForAgeZ),
      heightInMeters,
      Divide(weight, heightInMeters * heightInMeters),
      Divide(weight, height))
  }

  /** With a non-zero height both ratios are finite, BMI times the squared
      height in metres gives back the weight, and BMI is 10000 times the
      ratio over the height in centimetres. */
  lemma DerivedMetricsRelate(f: FormValues)
    requires OrZero(f.height) != 0.0
    ensures var d := ToMeasurementData(f);
      && d.bmi.Finite? && d.whr.Finite?
      && d.bmi.value * (d.heightM * d.heightM) == d.weight
      && d.whr.value * d.height == d.weight
      && d.bmi.value == 10000.0 * d.whr.value / d.height
  {
  }

  /** A positive height and weight give a positive BMI and ratio. */
  lemma PositiveInputsGivePositiveMetrics(f: FormValues)
    requires OrZero(f.height) > 0.0 && OrZero(f.weight) > 0.0
    ensures var d := ToMeasurementData(f);
      d.bmi.Finite? && d.bmi.value > 0.0 && d.whr.Finite? && d.whr.value > 0.0
  {
  }

  /** A blank, unparseable or zero height is not rejected: both ratios are
      divisions by zero, infinite for a positive weight and NaN for a zero
      one. */
  lemma ZeroHeightIsNotGuarded(f: FormValues)
    requires OrZero(f.height) == 0.0
    ensures var d := ToMeasurementData(f);
      && !d.bmi.Finite? && !d.whr.Finite?
      && (d.weight > 0.0 ==> d.bmi == PositiveInfinity && d.whr == PositiveInfinity)
      && (d.weight == 0.0 ==> d.bmi == NaN && d.whr == NaN)
  {
  }

  /** The analysis receives exactly the Z-scores entered (zero for a blank
      field); the form estimates nothing, and height, weight and age do not
      affect the classification. */
  lemma ZScoresPassThrough(f: FormValues, g: FormValues)
    requires f.heightForAgeZ == g.heightForAgeZ && f.weightForHeightZ == g.weightForHeightZ
    requires f.weightForAgeZ == g.weightForAgeZ
    ensures Api.Analyze(ToMeasurementData(f)).zScores
         == Api.ZScores(OrZero(f.heightForAgeZ), OrZero(f.weightForHeightZ), OrZero(f.weightForAgeZ))
    ensures Api.Analyze(ToMeasurementData(f)) == Api.Analyze(ToMeasurementData(g))
  {
  }
}
