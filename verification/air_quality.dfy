/** The vocabulary shared by the browser script and the Flask API: the
    pollutant reading a caller supplies, the AQI categories, the three risk
    labels with their percentage triples, and the three recommendation tiers. */
module AirQuality {

  /** One pollutant reading. Only `pm25` is scored; the other fields are
      carried through to the result unchanged. */
  datatype Reading = Reading(
    pm25: real,
    pm10: real,
    no2: real,
    so2: real,
    co: real,
    o3: real,
    temperature: real,
    humidity: real)

  /** AQI categories, declared from least to most severe. */
  datatype Category =
    | Good
    | Moderate
    | UnhealthyForSensitiveGroups
    | Unhealthy
    | VeryUnhealthy
    | Hazardous
  {
    function Severity(): nat {
      match this
      case Good => 0
      case Moderate => 1
      case UnhealthyForSensitiveGroups => 2
      case Unhealthy => 3
      case VeryUnhealthy => 4
      case Hazardous => 5
    }
  }

  /** The AQI interval a category covers: the lower edge is exclusive, the
      upper edge inclusive, and the first and last intervals are open-ended. */
  predicate Covers(c: Category, aqi: real) {
    match c
    case Good => aqi <= 50.0
    case Moderate => 50.0 < aqi <= 100.0
    case UnhealthyForSensitiveGroups => 100.0 < aqi <= 150.0
    case Unhealthy => 150.0 < aqi <= 200.0
    case VeryUnhealthy => 200.0 < aqi <= 300.0
    case Hazardous => 300.0 < aqi
  }

  /** The risk labels the rule-based classifier predicts, mildest first. */
  datatype RiskLabel = Low | Moderate | High {
    function Rank(): nat {
      match this
      case Low => 0
      case Moderate => 1
      case High => 2
    }
  }

  /** A probability triple in whole percent, one entry per risk label. */
  datatype Percentages = Percentages(low: int, moderate: int, high: int) {
    function Of(l: RiskLabel): int {
      match l
      case Low => low
      case Moderate => moderate
      case High => high
    }

    function Total(): int {
      low + moderate + high
    }
  }

  /** The three fixed sets of recommendations, mildest first: "air quality
      is satisfactory", "acceptable" and "unhealthy". */
  datatype Tier = Satisfactory | Acceptable | UnhealthyAir {
    function Rank(): nat {
      match this
      case Satisfactory => 0
      case Acceptable => 1
      case UnhealthyAir => 2
    }
  }

  /** The tier that belongs to a risk label. */
  function TierOf(l: RiskLabel): (t: Tier)
    ensures t.Rank() == l.Rank()
  {
    match l
    case Low => Satisfactory
    case Moderate => Acceptable
    case High => UnhealthyAir
  }

  /** The tier an AQI value alone suggests through the two AQI shortcuts of
      the recommendation selector. */
  function AqiTier(aqi: real): Tier {
    if aqi <= 50.0 then Satisfactory
    else if aqi <= 100.0 then Acceptable
    else UnhealthyAir
  }

  function Min(a: nat, b: nat): nat {
    if a <= b then a else b
  }
}
