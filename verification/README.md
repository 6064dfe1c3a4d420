# Air-pollution risk scoring, modelled in Dafny

The Metro Manila air-pollution dashboard turns a PM2.5 reading into an Air
Quality Index (AQI), an AQI category, a Low/Moderate/High risk label with a
fixed confidence and a percentage triple, and one of three sets of
recommendations. The same logic appears twice: in the browser script
(`script.js`, the static prediction engine) and in the Flask API
(`app.py`, the helper functions and the rule-based branch of `/predict`).
This project models both copies with exact `real` arithmetic and proves how
they behave and where they differ.

Modules:

- `Wrappers` (wrappers.dfy): a `Result` type for the API's error path.
- `AirQuality` (air_quality.dfy): the shared vocabulary. It holds the reading
  record, the six AQI categories with the interval each covers, the risk
  labels, the percentage triple and the three recommendation tiers.
- `Breakpoints` (breakpoints.dfy): AQI interpolation over a breakpoint table.
  It uses Equation 1 of the US EPA Technical Assistance Document for the
  Reporting of Daily Air Quality (EPA-454/B-18-007). It proves, for every
  well-formed table, that the AQI is strictly increasing. It also holds the
  program's PM2.5 table and the EPA 24-hour PM2.5 table.
- `ScriptEngine` (script_engine.dfy): `calculateAQI`, the six-band
  `getAQICategory`, `predictRiskStatic` and `getRecommendations`.
- `FlaskApi` (flask_api.dfy): `calculate_aqi`, the five-band
  `get_aqi_category` and `get_recommendations`. It also models the parameter
  defaulting of `predict` and its rule-based branch. The three helper
  functions and the rule-based branch are each proved against their
  `ScriptEngine` counterparts; the parameter defaulting has no counterpart in
  the script.

Design points:

- **Unvalidated input.** Readings are not validated, just as in the code. A
  negative PM2.5 follows the first row and gives a negative AQI, which is
  labelled "Good".
- **Top row.** The top row's slope 99/49.5 equals (300 − 201)/(200 − 150.5).
  The program's table therefore ends at 200 µg/m³, where EPA's ends at
  250.4. It is modelled as written, and `Breakpoints.Pm25TableAgainstEpa`
  states the difference.
- **Confidence.** The confidence is a fixed 95/90/85 per label. It is not the
  largest percentage, which is 90 for Low, 85 for Moderate and 90 for High.
- **PM2.5 only.** The classifier scores PM2.5 alone; no other pollutant
  affects the label, the AQI or the category.
- **Rounding.** The API rounds the AQI to one decimal and the confidence to
  two in its response; the model keeps the unrounded values, which are the
  ones the category and the recommendation tier are computed from.

## Model

| member | source | states |
|---|---|---|
| `Breakpoints.TableAqiStrictlyIncreasing` | script.js:267-279 | for any well-formed breakpoint table, first-row-whose-upper-edge-is-≥-c interpolation is strictly increasing in c, across breakpoints too |
| `Breakpoints.Pm25TableValid` | script.js:268-277 | the program's five rows are well formed: rising rows, increasing upper edges, and each next row's line lies above the previous row's upper AQI at that edge |
| `Breakpoints.Pm25TableAgainstEpa` | script.js:268-277 | the first four rows are EPA's 24-hour PM2.5 rows; the last keeps 150.5 and AQI 201..300 but ends at 200 instead of 250.4, giving slope 2 instead of EPA's under 1 |
| `ScriptEngine.CalculateAqi` | script.js:267-279 | each PM2.5 band (≤12, ≤35.4, ≤55.4, ≤150.4, ≤200, above) maps onto exactly the AQI band (≤50, ≤100, ≤150, ≤200, ≤300, above), both directions; AQI is non-negative iff PM2.5 is |
| `ScriptEngine.CalculateAqiIsTableInterpolation` | script.js:267-279 | the hard-coded formula equals EPA Equation 1 interpolation over the program's breakpoint table, for every reading |
| `ScriptEngine.CalculateAqiStrictlyIncreasing` | script.js:267-279 | a higher reading always gives a strictly higher AQI, including across the 12/12.1, 35.4/35.5, 55.4/55.5 and 150.4/150.5 jumps |
| `ScriptEngine.CalculateAqiAtEdges` | script.js:268-277 | first `<=` wins at the edges: 12→50, 35.4→100, 55.4→150, 150.4→200, 200→300; 12.1→51, 35.5→101, 55.5→151, 150.5→201 |
| `ScriptEngine.GoodRowIsProportional` | script.js:268-269 | for 0 ≤ pm25 ≤ 12 the AQI is pm25·50/12 and lies in [0, 50] |
| `ScriptEngine.AqiCategory` | script.js:281-288 | the returned category's interval (inclusive upper edges 50/100/150/200/300, "Hazardous" above 300) contains the AQI |
| `ScriptEngine.AqiCategoryExactlyCovers` | script.js:281-288 | a category is returned iff its interval contains the AQI, so the six bands are disjoint and exhaustive |
| `ScriptEngine.AqiCategoryMonotone` | script.js:281-288 | a higher AQI never gets a less severe category |
| `ScriptEngine.CategoryOfAqiMatchesPm25` | script.js:267-288 | the category of the computed AQI is Good iff pm25 ≤ 12, Moderate iff 12 < pm25 ≤ 35.4, USG iff ≤ 55.4, Unhealthy iff ≤ 150.4, Very Unhealthy iff ≤ 200, Hazardous iff above 200 |
| `ScriptEngine.RiskLabelOf` | script.js:297-315 | the label is Low iff pm25 ≤ 12, Moderate iff 12 < pm25 ≤ 35.4, High iff pm25 > 35.4 |
| `ScriptEngine.RiskLabelMonotone` | script.js:297-315 | a higher reading never gets a milder risk label |
| `ScriptEngine.GetRecommendations` | script.js:345-395 | the tier is the milder of the label's tier and the tier the AQI shortcuts (≤50, ≤100) suggest; it is never more severe than the label, and equals the label's tier iff the AQI does not soften it |
| `ScriptEngine.PredictRiskStatic` | script.js:290-343 | label by thresholds 12/35.4 (iff); the AQI is `CalculateAqi` of the reading's pm25; percentages sum to 100, each in [0,100], the predicted label strictly largest; confidence 95/90/85 with triples 90/8/2, 10/85/5, 2/8/90; category matches the PM2.5 band; parameters echo the input; the recommendation tier equals the predicted label |
| `ScriptEngine.OnlyPm25Matters` | script.js:290-335 | two readings with the same pm25 get the same result apart from the echoed parameters |
| `ScriptEngine.ConfidenceIsNotTopProbability` | script.js:297-315 | in every branch the confidence differs from the predicted label's probability |
| `FlaskApi.CalculateAqi` | app.py:117-128 | the API's own copy of the formula gives the script's AQI for every reading; AQI ≤ 50 iff pm25 ≤ 12 and AQI > 300 iff pm25 > 200 |
| `FlaskApi.AqiCategory` | app.py:130-141 | never "Hazardous"; "Very Unhealthy" iff AQI > 200; equal to the script's category whenever AQI ≤ 300 |
| `FlaskApi.CategoryTablesDisagreeAbove300` | app.py:130-141 | the API and script categories differ iff AQI > 300, and then they are "Very Unhealthy" and "Hazardous" |
| `FlaskApi.CategoryTablesDisagreeAbovePm200` | app.py:117-141 | on computed AQIs the two category tables differ iff pm25 > 200 |
| `FlaskApi.GetRecommendations` | app.py:143-194 | the API's own copy of the selector picks the script's tier for every label and AQI, never more severe than the label |
| `FlaskApi.Lookup` | app.py:266-273 | `float(data.get(key, default))`: the request's number when the key is present, the default when it is absent |
| `FlaskApi.ReadFields` | app.py:265-274 | fields are read in order; success iff every listed field is absent or numeric, each value then being the given number or the default; on failure the error names the first field `float` rejects |
| `FlaskApi.Params` | app.py:265-274 | succeeds iff every listed field parses; each reading field is then the request's number or its default (25, 50, 30, 10, 1.5, 40, 28, 65); an error names the first listed field that is not numeric |
| `FlaskApi.EmptyRequestGetsDefaults` | app.py:265-274 | a request with no fields yields the reading (25, 50, 30, 10, 1.5, 40, 28, 65) |
| `FlaskApi.RuleBased` | app.py:317-331 | the probability dictionary has exactly the keys low/moderate/high and sums to 100; the label follows thresholds 12/35.4 (iff) |
| `FlaskApi.RuleBasedMatchesScript` | app.py:317-331 | label, confidence and the probability dictionary agree with the script's `predictRiskStatic` on every reading |
| `FlaskApi.PredictFallback` | app.py:317-362 | succeeds iff the parameters parse, else returns their error (the `success: false` answer); on success the label, confidence and probability dictionary are the rule-based branch's for the parsed pm25, the AQI is the formula applied to it, the category is the five-band category of that AQI, it echoes the parameters, never says "Hazardous", the probabilities sum to 100, and the recommendation tier equals the predicted label |
| `FlaskApi.PredictFallbackMatchesScript` | app.py:333-352 | the fallback response has the script's label, confidence, AQI (before the API rounds it) and tier for its parameters, and the same probability dictionary, the same category iff pm25 ≤ 200, and "Very Unhealthy" above 200 |
| `FlaskApi.EmptyRequestPredictsModerate` | app.py:265-331 | an empty request predicts "Moderate" with confidence 90, category Moderate and the middle recommendation tier |

## Left out

- Presentation code in script.js is not modelled: the DOM, sliders, charts,
  alerts, animations and keyboard handling, with `updateModelAccuracy`,
  `loadScenario` and `resetForm`. None of it computes a score.
- Loading the dashboard JSON, the `setTimeout` pacing and the "API mode"
  branch of `predictRisk` are not modelled. They are I/O and timers around a
  call to the modelled `predictRiskStatic`.
- The Flask routes, CORS, the HTML page, `jsonify` and the `timestamp` field
  are web plumbing and are not modelled.
- The `location` field is not modelled. It is echoed without being used.
- The trained-model branch of `/predict` is not modelled: loading the model,
  the scaler, `predict`/`predict_proba` and feature filling. These are calls
  into a machine-learning library whose behaviour is not visible here. Only
  the branch taken when no model is loaded is modelled.
- The `success` flag and the `model_info` metadata are constants with no
  logic, and are not modelled.
- `round(...)`, `toFixed(...)`, `parseFloat` and IEEE-754 doubles are not
  modelled. All values are exact reals, so the slopes such as 49/23.3 are
  exact quotients.
- The recommendation strings are not modelled. Each of the three fixed lists
  is one `Tier` value.
- FlaskApi.Params: `JsonValue` abstracts what Python's `float` accepts (a
  number, a numeric string, a boolean) as `Number(value)`. Everything it
  rejects is `NotANumber`. The exception text is reduced to the name of the
  offending field.
- FlaskApi.PredictFallback: the model covers a request body that is a JSON
  object; an empty object stands for every body `request.json or {}` turns
  into `{}` (a missing body, `null`, `0`, `false`, `""`, `[]`, `{}`). Not
  modelled: a truthy body that is not an object (`[1]`, `5`, `"x"`, `true`),
  on which `data.get` raises and the endpoint answers `success: false`; a
  body Flask refuses to decode (on recent Flask versions, a request whose
  Content-Type is not JSON), which reaches the same error answer; and the
  strings `"nan"` and `"inf"`, which `float` accepts but which have no real
  value.
- fix_accuracy.py is not modelled. It only rewrites model and JSON files on
  disk.
