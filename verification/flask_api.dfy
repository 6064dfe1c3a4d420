/** The Flask API's copy of the scoring logic: its own AQI formula, a
    five-band category table without "Hazardous", the recommendation tier,
    the defaulting of request fields and the rule-based branch of the
    prediction endpoint that runs when no trained model is loaded. */
module FlaskApi {
  import opened Wrappers
  import opened AirQuality
  import ScriptEngine

  /** The API's own copy of the PM2.5 to AQI formula. */
  function CalculateAqi(pm25: real): (aqi: real)
    ensures aqi == ScriptEngine.CalculateAqi(pm25)
    ensures pm25 <= 12.0 <==> aqi <= 50.0
    ensures 200.0 < pm25 <==> 300.0 < aqi
  {
    if pm25 <= 12.0 then pm25 * (50.0 / 12.0)
    else if pm25 <= 35.4 then 51.0 + (pm25 - 12.1) * (49.0 / 23.3)
    else if pm25 <= 55.4 then 101.0 + (pm25 - 35.5) * (49.0 / 19.9)
    else if pm25 <= 150.4 then 151.0 + (pm25 - 55.5) * (49.0 / 94.9)
    else 201.0 + (pm25 - 150.5) * (99.0 / 49.5)
  }


  /** Five bands: everything above 200 is "Very Unhealthy". */
  function AqiCategory(aqi: real): (c: Category)
    ensures c != Hazardous
    ensures 200.0 < aqi <==> c == VeryUnhealthy
    ensures aqi <= 300.0 ==> c == ScriptEngine.AqiCategory(aqi)
  {
    if aqi <= 50.0 then Good
    else if aqi <= 100.0 then Category.Moderate
    else if aqi <= 150.0 then UnhealthyForSensitiveGroups
    else if aqi <= 200.0 then Unhealthy
    else VeryUnhealthy
  }

  /** The two category tables disagree exactly above AQI 300, where the
      script says "Hazardous" and the API "Very Unhealthy". */
  lemma CategoryTablesDisagreeAbove300(aqi: real)
    ensures AqiCategory(aqi) != ScriptEngine.AqiCategory(aqi) <==> 300.0 < aqi
    ensures 300.0 < aqi ==> AqiCategory(aqi) == VeryUnhealthy && ScriptEngine.AqiCategory(aqi) == Hazardous
  {
  }

  /** In terms of the reading, the tables disagree exactly above 200 ug/m3. */
  lemma CategoryTablesDisagreeAbovePm200(pm25: real)
    ensures AqiCategory(CalculateAqi(pm25)) != ScriptEngine.AqiCategory(ScriptEngine.CalculateAqi(pm25))
        <==> 200.0 < pm25
  {
    CategoryTablesDisagreeAbove300(CalculateAqi(pm25));
  }

  /** The API's own copy of the recommendation selector. */
  function GetRecommendations(riskLevel: RiskLabel, aqi: real): (t: Tier)
    ensures t == ScriptEngine.GetRecommendations(riskLevel, aqi)
    ensures t.Rank() <= riskLevel.Rank()
  {
    if riskLevel == Low || aqi <= 50.0 then Satisfactory
    else if riskLevel == RiskLabel.Moderate || aqi <= 100.0 then Acceptable
    else UnhealthyAir
  }


  /** A JSON field of the request body: a value Python's `float` accepts,
      or one it rejects (a non-numeric string, null, a list, ...). */
  datatype JsonValue = Number(value: real) | NotANumber

  /** The decoded request body; a missing body is the empty map. */
  type Request = map<string, JsonValue>

  /** `float(...)` raised on the named field; the endpoint answers with
      `success: false` and the exception text. */
  datatype ApiError = BadNumber(field: string)

  /** The scored fields in the order the parameter dictionary lists them,
      with the default used when a field is absent. */
  const FieldNames: seq<string> := ["pm25", "pm10", "no2", "so2", "co", "o3", "temperature", "humidity"]
  const FieldDefaults: seq<real> := [25.0, 50.0, 30.0, 10.0, 1.5, 40.0, 28.0, 65.0]

  const DefaultReading := Reading(25.0, 50.0, 30.0, 10.0, 1.5, 40.0, 28.0, 65.0)

  predicate Parsable(data: Request, key: string) {
    key !in data || data[key].Number?
  }

  /** `float(data.get(key, default))` when it succeeds. */
  function Lookup(data: Request, key: string, default: real): (v: real)
    requires Parsable(data, key)
    ensures key in data ==> data[key] == Number(v)
    ensures key !in data ==> v == default
  {
    if key in data then data[key].value else default
  }

  /** Reads the fields one after the other and stops at the first one
      `float` rejects. */
  function ReadFields(data: Request, keys: seq<string>, defaults: seq<real>): (r: Result<seq<real>, ApiError>)
    requires |keys| == |defaults|
    ensures r.Success? <==> forall i :: 0 <= i < |keys| ==> Parsable(data, keys[i])
    ensures r.Success? ==> |r.value| == |keys|
    ensures r.Success? ==> forall i :: 0 <= i < |keys| ==> r.value[i] == Lookup(data, keys[i], defaults[i])
    ensures r.Failure? ==>
      exists i :: (0 <= i < |keys| && r.error == BadNumber(keys[i]) && !Parsable(data, keys[i])
        && forall j :: 0 <= j < i ==> Parsable(data, keys[j]))
    decreases |keys|
  {
    if |keys| == 0 then Success([])
    else if !Parsable(data, keys[0]) then Failure(BadNumber(keys[0]))
    else
      var rest := ReadFields(data, keys[1..], defaults[1..]);
      if rest.Failure? then rest
      else Success([Lookup(data, keys[0], defaults[0])] + rest.value)
  }

  /** The parameter dictionary of the prediction endpoint. */
  function Params(data: Request): (r: Result<Reading, ApiError>)
    ensures r.Success? <==> forall i :: 0 <= i < |FieldNames| ==> Parsable(data, FieldNames[i])
    ensures r.Success? ==> Parsable(data, "pm25") && r.value.pm25 == Lookup(data, "pm25", 25.0)
    ensures r.Success? ==> Parsable(data, "pm10") && r.value.pm10 == Lookup(data, "pm10", 50.0)
    ensures r.Success? ==> Parsable(data, "no2") && r.value.no2 == Lookup(data, "no2", 30.0)
    ensures r.Success? ==> Parsable(data, "so2") && r.value.so2 == Lookup(data, "so2", 10.0)
    ensures r.Success? ==> Parsable(data, "co") && r.value.co == Lookup(data, "co", 1.5)
    ensures r.Success? ==> Parsable(data, "o3") && r.value.o3 == Lookup(data, "o3", 40.0)
    ensures r.Success? ==> Parsable(data, "temperature") && r.value.temperature == Lookup(data, "temperature", 28.0)
    ensures r.Success? ==> Parsable(data, "humidity") && r.value.humidity == Lookup(data, "humidity", 65.0)
    ensures r.Failure? ==> r.error.field in FieldNames && !Parsable(data, r.error.field)
    ensures r.Failure? ==>
      exists i :: (0 <= i < |FieldNames| && r.error == BadNumber(FieldNames[i])
        && forall j :: 0 <= j < i ==> Parsable(data, FieldNames[j]))
  {
    var v :- ReadFields(data, FieldNames, FieldDefaults);
    Success(Reading(v[0], v[1], v[2], v[3], v[4], v[5], v[6], v[7]))
  }

  /** A request with no fields gets the defaults. */
  lemma EmptyRequestGetsDefaults()
    ensures Params(map[]) == Success(DefaultReading)
  {
  }

  /** The rule-based branch: label, fixed confidence and the probability
      dictionary keyed by lower-case label names. */
  datatype RuleVerdict = RuleVerdict(prediction: RiskLabel, confidence: int, probabilities: map<string, int>)

  function RuleBased(pm25: real): (v: RuleVerdict)
    ensures v.probabilities.Keys == {"low", "moderate", "high"}
    ensures v.probabilities["low"] + v.probabilities["moderate"] + v.probabilities["high"] == 100
    ensures v.prediction == Low <==> pm25 <= 12.0
    ensures v.prediction == RiskLabel.Moderate <==> 12.0 < pm25 <= 35.4
    ensures v.prediction == High <==> 35.4 < pm25
  {
    if pm25 <= 12.0 then
      RuleVerdict(Low, 95, map["low" := 90, "moderate" := 8, "high" := 2])
    else if pm25 <= 35.4 then
      RuleVerdict(RiskLabel.Moderate, 90, map["low" := 10, "moderate" := 85, "high" := 5])
    else
      RuleVerdict(High, 85, map["low" := 2, "moderate" := 8, "high" := 90])
  }

  /** The API's rule-based branch uses the script's thresholds, confidences
      and percentages. */
  lemma RuleBasedMatchesScript(reading: Reading)
    ensures var s := ScriptEngine.PredictRiskStatic(reading);
      var v := RuleBased(reading.pm25);
      && v.prediction == s.prediction
      && v.confidence == s.confidence
      && v.probabilities == map["low" := s.probabilities.low,
                                "moderate" := s.probabilities.moderate,
                                "high" := s.probabilities.high]
  {
  }

  /** What the endpoint answers with when no trained model is loaded.
      `aqi` and `confidence` are the values before the response rounds
      them (`round(aqi, 1)`, `round(confidence, 2)`); the category and the
      recommendation tier are computed from the unrounded AQI. */
  datatype Response = Response(
    prediction: RiskLabel,
    confidence: int,
    probabilities: map<string, int>,
    aqi: real,
    aqiCategory: Category,
    parameters: Reading,
    recommendations: Tier)

  function PredictFallback(data: Request): (r: Result<Response, ApiError>)
    ensures r.Success? <==> Params(data).Success?
    ensures r.Failure? ==> r.error == Params(data).error
    ensures r.Success? ==> r.value.parameters == Params(data).value
    ensures r.Success? ==> r.value.aqi == ScriptEngine.CalculateAqi(r.value.parameters.pm25)
    ensures r.Success? ==> r.value.aqiCategory == AqiCategory(r.value.aqi)
    ensures r.Success? ==>
      (var v := RuleBased(r.value.parameters.pm25);
       && r.value.prediction == v.prediction
       && r.value.confidence == v.confidence
       && r.value.probabilities == v.probabilities)
    ensures r.Success? ==> r.value.aqiCategory != Hazardous
    ensures r.Success? ==> r.value.recommendations == TierOf(r.value.prediction)
    ensures r.Success? ==> r.value.probabilities.Keys == {"low", "moderate", "high"}
    ensures r.Success? ==>
      (r.value.probabilities["low"] + r.value.probabilities["moderate"] + r.value.probabilities["high"] == 100)
  {
    var params :- Params(data);
    var verdict := RuleBased(params.pm25);
    var aqi := CalculateAqi(params.pm25);
    ScriptEngine.CategoryOfAqiMatchesPm25(params.pm25);
    Success(Response(
      verdict.prediction,
      verdict.confidence,
      verdict.probabilities,
      aqi,
      AqiCategory(aqi),
      params,
      GetRecommendations(verdict.prediction, aqi)))
  }

  /** The fallback answer agrees with the browser script on every reading,
      except that its category stops at "Very Unhealthy". */
  lemma PredictFallbackMatchesScript(data: Request)
    requires Params(data).Success?
    ensures var resp := PredictFallback(data).value;
      var s := ScriptEngine.PredictRiskStatic(resp.parameters);
      && resp.prediction == s.prediction
      && resp.confidence == s.confidence
      && resp.probabilities == map["low" := s.probabilities.low,
                                   "moderate" := s.probabilities.moderate,
                                   "high" := s.probabilities.high]
      && resp.aqi == s.aqi
      && resp.recommendations == s.recommendations
      && (resp.aqiCategory == s.aqiCategory <==> resp.parameters.pm25 <= 200.0)
      && (200.0 < resp.parameters.pm25 ==> resp.aqiCategory == VeryUnhealthy)
  {
    var p := Params(data).value;
    RuleBasedMatchesScript(p);
    CategoryTablesDisagreeAbovePm200(p.pm25);
  }

  /** An empty request predicts "Moderate" from the default PM2.5 of 25. */
  lemma EmptyRequestPredictsModerate()
    ensures PredictFallback(map[]).Success?
    ensures PredictFallback(map[]).value.prediction == RiskLabel.Moderate
    ensures PredictFallback(map[]).value.confidence == 90
    ensures PredictFallback(map[]).value.aqiCategory == Category.Moderate
    ensures PredictFallback(map[]).value.recommendations == Acceptable
  {
    EmptyRequestGetsDefaults();
  }
}
