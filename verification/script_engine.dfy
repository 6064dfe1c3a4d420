/** The static prediction engine of the browser script: PM2.5 to AQI, AQI to
    one of six categories, the PM2.5-threshold risk classifier, and the
    choice among the three recommendation tiers. */
module ScriptEngine {
  import opened AirQuality
  import Breakpoints

  /** PM2.5 (ug/m3) to AQI. Rows are tried in order with `<=` against each
      upper edge, so a reading exactly on an edge belongs to the lower row.
      Nothing is validated: a negative reading follows the first row. */
  function CalculateAqi(pm25: real): (aqi: real)
    ensures pm25 <= 12.0 <==> aqi <= 50.0
    ensures 12.0 < pm25 <= 35.4 <==> 50.0 < aqi <= 100.0
    ensures 35.4 < pm25 <= 55.4 <==> 100.0 < aqi <= 150.0
    ensures 55.4 < pm25 <= 150.4 <==> 150.0 < aqi <= 200.0
    ensures 150.4 < pm25 <= 200.0 <==> 200.0 < aqi <= 300.0
    ensures 200.0 < pm25 <==> 300.0 < aqi
    ensures 0.0 <= pm25 <==> 0.0 <= aqi
  {
    if pm25 <= 12.0 then pm25 * (50.0 / 12.0)
    else if pm25 <= 35.4 then 51.0 + (pm25 - 12.1) * (49.0 / 23.3)
    else if pm25 <= 55.4 then 101.0 + (pm25 - 35.5) * (49.0 / 19.9)
    else if pm25 <= 150.4 then 151.0 + (pm25 - 55.5) * (49.0 / 94.9)
    else 201.0 + (pm25 - 150.5) * (99.0 / 49.5)
  }

  /** The hard-coded formula is the breakpoint-table interpolation. */
  lemma CalculateAqiIsTableInterpolation(pm25: real)
    ensures Breakpoints.Valid(Breakpoints.Pm25Table)
    ensures CalculateAqi(pm25) == Breakpoints.TableAqi(Breakpoints.Pm25Table, pm25)
  {
    Breakpoints.Pm25TableValid();
    var t0 := Breakpoints.Pm25Table;
    Breakpoints.ValidTail(t0);
    var t1 := t0[1..];
    Breakpoints.ValidTail(t1);
    var t2 := t1[1..];
    Breakpoints.ValidTail(t2);
    var t3 := t2[1..];
    Breakpoints.ValidTail(t3);
    var t4 := t3[1..];
    assert |t4| == 1 && t4[0] == Breakpoints.Breakpoint(150.5, 200.0, 201.0, 300.0);
    if pm25 <= 12.0 {
      assert Breakpoints.TableAqi(t0, pm25) == Breakpoints.Interpolate(t0[0], pm25);
    } else if pm25 <= 35.4 {
      assert Breakpoints.TableAqi(t1, pm25) == Breakpoints.Interpolate(t1[0], pm25);
    } else if pm25 <= 55.4 {
      assert Breakpoints.TableAqi(t2, pm25) == Breakpoints.Interpolate(t2[0], pm25);
    } else if pm25 <= 150.4 {
      assert Breakpoints.TableAqi(t3, pm25) == Breakpoints.Interpolate(t3[0], pm25);
    } else {
      assert Breakpoints.TableAqi(t4, pm25) == Breakpoints.Interpolate(t4[0], pm25);
    }
  }

  /** A higher reading always gives a higher AQI, including across the
      jumps 12 -> 12.1, 35.4 -> 35.5, 55.4 -> 55.5 and 150.4 -> 150.5. */
  lemma CalculateAqiStrictlyIncreasing(x: real, y: real)
    requires x < y
    ensures CalculateAqi(x) < CalculateAqi(y)
  {
    CalculateAqiIsTableInterpolation(x);
    CalculateAqiIsTableInterpolation(y);
    Breakpoints.TableAqiStrictlyIncreasing(Breakpoints.Pm25Table, x, y);
  }

  /** The AQI at the row edges: each row ends on its upper AQI, and the next
      row starts one AQI point higher one tenth of a microgram later. */
  lemma CalculateAqiAtEdges()
    ensures CalculateAqi(12.0) == 50.0 && CalculateAqi(12.1) == 51.0
    ensures CalculateAqi(35.4) == 100.0 && CalculateAqi(35.5) == 101.0
    ensures CalculateAqi(55.4) == 150.0 && CalculateAqi(55.5) == 151.0
    ensures CalculateAqi(150.4) == 200.0 && CalculateAqi(150.5) == 201.0
    ensures CalculateAqi(200.0) == 300.0
  {
  }

  /** On the first row the AQI is proportional to the reading. */
  lemma GoodRowIsProportional(pm25: real)
    requires 0.0 <= pm25 <= 12.0
    ensures 0.0 <= CalculateAqi(pm25) <= 50.0
    ensures CalculateAqi(pm25) * 12.0 == pm25 * 50.0
  {
  }

  /** AQI to category, six bands with inclusive upper edges
      50/100/150/200/300 and "Hazardous" above 300. */
  function AqiCategory(aqi: real): (c: Category)
    ensures Covers(c, aqi)
  {
    if aqi <= 50.0 then Good
    else if aqi <= 100.0 then Category.Moderate
    else if aqi <= 150.0 then UnhealthyForSensitiveGroups
    else if aqi <= 200.0 then Unhealthy
    else if aqi <= 300.0 then VeryUnhealthy
    else Hazardous
  }

  /** The bands do not overlap: a category is the script's category of an
      AQI exactly when its interval covers that AQI. */
  lemma AqiCategoryExactlyCovers(aqi: real, c: Category)
    ensures AqiCategory(aqi) == c <==> Covers(c, aqi)
  {
  }

  /** A higher AQI never gets a milder category. */
  lemma AqiCategoryMonotone(a: real, b: real)
    requires a <= b
    ensures AqiCategory(a).Severity() <= AqiCategory(b).Severity()
  {
  }

  /** The category a PM2.5 reading falls in, read directly off the PM2.5
      thresholds of the breakpoint table. */
  function Pm25Category(pm25: real): Category {
    if pm25 <= 12.0 then Good
    else if pm25 <= 35.4 then Category.Moderate
    else if pm25 <= 55.4 then UnhealthyForSensitiveGroups
    else if pm25 <= 150.4 then Unhealthy
    else if pm25 <= 200.0 then VeryUnhealthy
    else Hazardous
  }

  /** Categorising the computed AQI agrees with the PM2.5 bands. */
  lemma CategoryOfAqiMatchesPm25(pm25: real)
    ensures AqiCategory(CalculateAqi(pm25)) == Pm25Category(pm25)
    ensures AqiCategory(CalculateAqi(pm25)) == Good <==> pm25 <= 12.0
    ensures AqiCategory(CalculateAqi(pm25)) == Category.Moderate <==> 12.0 < pm25 <= 35.4
    ensures AqiCategory(CalculateAqi(pm25)) == UnhealthyForSensitiveGroups <==> 35.4 < pm25 <= 55.4
    ensures AqiCategory(CalculateAqi(pm25)) == Unhealthy <==> 55.4 < pm25 <= 150.4
    ensures AqiCategory(CalculateAqi(pm25)) == VeryUnhealthy <==> 150.4 < pm25 <= 200.0
    ensures AqiCategory(CalculateAqi(pm25)) == Hazardous <==> 200.0 < pm25
  {
  }

  /** The risk label from the PM2.5 thresholds 12 and 35.4 alone. */
  function RiskLabelOf(pm25: real): (l: RiskLabel)
    ensures l == Low <==> pm25 <= 12.0
    ensures l == RiskLabel.Moderate <==> 12.0 < pm25 <= 35.4
    ensures l == High <==> 35.4 < pm25
  {
    if pm25 <= 12.0 then Low
    else if pm25 <= 35.4 then RiskLabel.Moderate
    else High
  }

  lemma RiskLabelMonotone(x: real, y: real)
    requires x <= y
    ensures RiskLabelOf(x).Rank() <= RiskLabelOf(y).Rank()
  {
  }

  /** The recommendation tier: the "Low" label or an AQI of at most 50 picks
      the mildest tier, otherwise "Moderate" or an AQI of at most 100 picks
      the middle one, otherwise the severest. The AQI can only soften the
      tier: the result is the milder of what the label and the AQI suggest. */
  function GetRecommendations(riskLevel: RiskLabel, aqi: real): (t: Tier)
    ensures t.Rank() == Min(TierOf(riskLevel).Rank(), AqiTier(aqi).Rank())
    ensures t.Rank() <= riskLevel.Rank()
    ensures t == TierOf(riskLevel) <==> riskLevel.Rank() <= AqiTier(aqi).Rank()
  {
    if riskLevel == Low || aqi <= 50.0 then Satisfactory
    else if riskLevel == RiskLabel.Moderate || aqi <= 100.0 then Acceptable
    else UnhealthyAir
  }

  /** Everything `predictRiskStatic` returns that the model keeps. */
  datatype StaticPrediction = StaticPrediction(
    prediction: RiskLabel,
    confidence: int,
    probabilities: Percentages,
    aqi: real,
    aqiCategory: Category,
    parameters: Reading,
    recommendations: Tier)

  /** The fixed confidence and percentage triple of each label. */
  function Confidence(l: RiskLabel): int {
    match l
    case Low => 95
    case Moderate => 90
    case High => 85
  }

  function ProbabilitiesFor(l: RiskLabel): Percentages {
    match l
    case Low => Percentages(90, 8, 2)
    case Moderate => Percentages(10, 85, 5)
    case High => Percentages(2, 8, 90)
  }

  function PredictRiskStatic(formData: Reading): (r: StaticPrediction)
    ensures r.prediction == Low <==> formData.pm25 <= 12.0
    ensures r.prediction == RiskLabel.Moderate <==> 12.0 < formData.pm25 <= 35.4
    ensures r.prediction == High <==> 35.4 < formData.pm25
    ensures r.probabilities.Total() == 100
    ensures forall l: RiskLabel :: 0 <= r.probabilities.Of(l) <= 100
    ensures forall l: RiskLabel :: l != r.prediction ==> r.probabilities.Of(l) < r.probabilities.Of(r.prediction)
    ensures r.confidence == 95 || r.confidence == 90 || r.confidence == 85
    ensures r.prediction == Low ==> r.confidence == 95 && r.probabilities == Percentages(90, 8, 2)
    ensures r.prediction == RiskLabel.Moderate ==> r.confidence == 90 && r.probabilities == Percentages(10, 85, 5)
    ensures r.prediction == High ==> r.confidence == 85 && r.probabilities == Percentages(2, 8, 90)
    ensures r.aqi == CalculateAqi(formData.pm25)
    ensures r.aqiCategory == AqiCategory(r.aqi) && r.aqiCategory == Pm25Category(formData.pm25)
    ensures r.parameters == formData
    ensures r.recommendations == TierOf(r.prediction)
  {
    var prediction := RiskLabelOf(formData.pm25);
    var aqi := CalculateAqi(formData.pm25);
    CategoryOfAqiMatchesPm25(formData.pm25);
    StaticPrediction(
      prediction,
      Confidence(prediction),
      ProbabilitiesFor(prediction),
      aqi,
      AqiCategory(aqi),
      formData,
      GetRecommendations(prediction, aqi))
  }

  /** Only `pm25` influences the result; the reading is echoed unchanged. */
  lemma OnlyPm25Matters(a: Reading, b: Reading)
    requires a.pm25 == b.pm25
    ensures PredictRiskStatic(a).(parameters := b) == PredictRiskStatic(b)
  {
  }

  /** The confidence is not the largest probability: it exceeds it by 5 for
      "Low" and "Moderate" and falls 5 short of it for "High". */
  lemma ConfidenceIsNotTopProbability(formData: Reading)
    ensures var r := PredictRiskStatic(formData);
      r.confidence != r.probabilities.Of(r.prediction)
  {
  }
}
