/** Value types of the conflict-risk model: herd documents, conflict zones, the
    weather payload and the assessed-zone record returned by the risk endpoint. */
module BovineTypes {

  datatype Option<T> = None | Some(value: T) {
    /** Python's `d.get(key, default)` for a key that may be absent. */
    function GetOr(default: T): T {
      if Some? then value else default
    }
  }

  /** Either a value, or the key whose dictionary lookup raised Python's KeyError. */
  datatype Result<T> = Ok(value: T) | KeyError(key: string)

  /** A herd document as stored. The fields that the core reads with a default
      (`h.get("heads", 0)`, `h.get("water_days", 10)`, `h.get("ndvi", 0)`) may be
      absent; the coordinates are always read with `h["lat"]`, `h["lng"]`. */
  datatype Herd = Herd(
    name: string,
    lat: real,
    lng: real,
    heads: Option<int>,
    waterDays: Option<int>,
    ndvi: Option<real>)

  /** A conflict-zone record. `risk_score` is read with a default of 50 and
      `prediction_factors["historical_violence"]` with a default of 0.5; the
      centre, the radius (metres) and the factor dictionary itself are required.
      Descriptive fields the core never reads (conflict type, ethnicities,
      incident counts, date of the last incident, description) are carried by `name` and `id` alone. */
  datatype Zone = Zone(
    id: string,
    name: string,
    lat: real,
    lng: real,
    radius: real,
    riskLevel: string,
    riskScore: Option<real>,
    predictionFactors: map<string, real>)

  /** The weather payload as far as the core reads it: either it has no `"daily"`
      entry (the fetch failed and returned None, or the payload is `{}`), or it has
      one, whose `"precipitation_sum"` list may be absent. */
  datatype Weather = NoDaily | Daily(precipitationSum: Option<seq<real>>)

  /** The four-level label of an assessed zone. */
  datatype Level = Low | Medium | High | Critical {
    /** The string the endpoint reports. */
    function Name(): string {
      match this
      case Low => "Low"
      case Medium => "Medium"
      case High => "High"
      case Critical => "Critical"
    }

    /** Position in the order Low < Medium < High < Critical. */
    function Rank(): nat {
      match this
      case Low => 0
      case Medium => 1
      case High => 2
      case Critical => 3
    }
  }

  /** The four stress factors of an assessment. */
  datatype Factors = Factors(herdConvergence: real, waterStress: real, ndviStress: real, weatherStress: real)

  /** `{**zone, "real_time_risk": …, "real_time_level": …, "nearby_herds": …, "factors": {…}}`:
      the zone unchanged plus exactly the four added entries. */
  datatype AssessedZone = AssessedZone(
    zone: Zone,
    realTimeRisk: real,
    realTimeLevel: Level,
    nearbyHerds: nat,
    factors: Factors)
}
