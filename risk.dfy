/** The conflict-risk assessment of one zone, `calculate_conflict_risk` in
    backend/server.py: the herds near the zone, four stress factors, a weighted
    modifier applied to the zone's base risk, the clamp to [0, 100] and the
    four-level label. */
module ConflictRisk {
  import opened BovineTypes
  import opened Numeric
  import opened Herds

  /** Metres per degree in the flat-plane conversion of a zone radius. */
  const MetresPerDegree: real := 111000.0
  const DefaultBaseRisk: real := 50.0
  const DefaultHistoricalViolence: real := 0.5
  /** Number of leading daily precipitation entries the weather factor adds up. */
  const RainWindowDays: nat := 7

  // ---------------------------------------------------------------- distance

  /** `zone["radius"] / 111000`: the radius in coordinate degrees. */
  function RadiusDegrees(zone: Zone): (deg: real)
    ensures deg * MetresPerDegree == zone.radius
    ensures deg > 0.0 <==> zone.radius > 0.0
  {
    zone.radius / MetresPerDegree
  }

  /** The square of the Euclidean distance, in degrees, between herd and zone centre. */
  function SquaredDistance(h: Herd, zone: Zone): (d: real)
    ensures d >= 0.0
  {
    (h.lat - zone.lat) * (h.lat - zone.lat) + (h.lng - zone.lng) * (h.lng - zone.lng)
  }

  /** The test `dist < zone_radius_deg * 2`, with `dist` the square root of the
      squared distance, written without the root: a non-negative root is below a
      limit exactly when the limit is positive and the square is below its square. */
  function InRange(h: Herd, zone: Zone): (near: bool)
    ensures near ==> zone.radius > 0.0
    ensures zone.radius > 0.0 && h.lat == zone.lat && h.lng == zone.lng ==> near
  {
    var limit := RadiusDegrees(zone) * 2.0;
    if limit > 0.0 then
      SquareStrictMonotone(0.0, limit);
      SquaredDistance(h, zone) < limit * limit
    else false
  }

  /** For the distance `dist` (the non-negative root of the squared distance),
      `InRange` is the source's test `dist < 2 * radius / 111000`. */
  lemma InRangeIsDistanceTest(h: Herd, zone: Zone, dist: real)
    requires dist >= 0.0 && dist * dist == SquaredDistance(h, zone)
    ensures InRange(h, zone) <==> dist < RadiusDegrees(zone) * 2.0
  {
    var limit := RadiusDegrees(zone) * 2.0;
    if dist < limit {
      SquareStrictMonotone(dist, limit);
    } else if limit > 0.0 {
      SquareMonotone(limit, dist);
    }
  }

  /** The `nearby_herds` list: the herds in range, in input order. */
  function Nearby(herds: seq<Herd>, zone: Zone): (nearby: seq<Herd>)
    ensures |nearby| <= |herds|
  {
    if herds == [] then []
    else
      var last := herds[|herds| - 1];
      Nearby(herds[..|herds| - 1], zone) + (if InRange(last, zone) then [last] else [])
  }

  /** The nearby list of two herd lists together is the two nearby lists in order:
      the filter keeps the input order. */
  lemma {:induction false} NearbyAppend(a: seq<Herd>, b: seq<Herd>, zone: Zone)
    ensures Nearby(a + b, zone) == Nearby(a, zone) + Nearby(b, zone)
  {
    if b == [] {
      assert a + b == a;
    } else {
      var b' := b[..|b| - 1];
      assert (a + b)[..|a + b| - 1] == a + b';
      NearbyAppend(a, b', zone);
    }
  }

  /** A herd is in the nearby list exactly when it is in the input and in range. */
  lemma {:induction false} NearbyMembership(herds: seq<Herd>, zone: Zone, h: Herd)
    ensures h in Nearby(herds, zone) <==> h in herds && InRange(h, zone)
  {
    if herds != [] {
      var init := herds[..|herds| - 1];
      assert herds == init + [herds[|herds| - 1]];
      NearbyMembership(init, zone, h);
    }
  }

  // ---------------------------------------------------------------- factors

  /** `min(1.0, len(nearby_herds) / 3)`. */
  function Convergence(n: nat): (c: real)
    ensures 0.0 <= c <= 1.0
    ensures n >= 3 ==> c == 1.0
    ensures n < 3 ==> c * 3.0 == n as real
  {
    Min(1.0, n as real / 3.0)
  }

  /** More nearby herds never lower the convergence factor. */
  lemma ConvergenceMonotone(m: nat, n: nat)
    requires m <= n
    ensures Convergence(m) <= Convergence(n)
  {
  }

  /** The water-stress factor: 0 with no herd nearby, else
      `max(0, (5 - avg water_days) / 5)`. */
  function WaterStress(nearby: seq<Herd>): (w: real)
    requires forall h <- nearby :: h.waterDays.Some?
    ensures w >= 0.0
    ensures nearby == [] ==> w == 0.0
  {
    if nearby == [] then 0.0
    else Max(0.0, (5.0 - SumWaterDays(nearby) as real / |nearby| as real) / 5.0)
  }

  /** The NDVI-stress factor: 0 with no herd nearby, else
      `max(0, (0.5 - avg ndvi) / 0.5)`. */
  function NdviStress(nearby: seq<Herd>): (s: real)
    requires forall h <- nearby :: h.ndvi.Some?
    ensures s >= 0.0
    ensures nearby == [] ==> s == 0.0
  {
    if nearby == [] then 0.0
    else Max(0.0, (0.5 - SumNdvi(nearby) / |nearby| as real) / 0.5)
  }

  /** `sum(weather_data["daily"].get("precipitation_sum", [0])[:7])`: the first seven
      daily amounts, an absent list reading as `[0]`; 0 when there is no `"daily"`. */
  function RainSevenDays(weather: Weather): (rain: real)
    ensures weather.NoDaily? || weather == Daily(None) ==> rain == 0.0
    ensures weather.Daily? && weather.precipitationSum.Some? && |weather.precipitationSum.value| <= RainWindowDays
            ==> rain == SumReals(weather.precipitationSum.value)
  {
    match weather
    case NoDaily => 0.0
    case Daily(p) =>
      var amounts := p.GetOr([0.0]);
      SumReals(if |amounts| <= RainWindowDays then amounts else amounts[..RainWindowDays])
  }

  /** Only the first seven daily amounts count: whatever follows them is ignored. */
  lemma RainSevenDaysIgnoresLaterDays(first: seq<real>, later: seq<real>)
    requires |first| >= RainWindowDays
    ensures RainSevenDays(Daily(Some(first + later))) == RainSevenDays(Daily(Some(first)))
  {
    assert (first + later)[..RainWindowDays] == first[..RainWindowDays];
    if |first| == RainWindowDays {
      assert first[..RainWindowDays] == first;
    }
    if later == [] {
      assert first + later == first;
    }
  }

  /** The weather factor: 0 with no `"daily"` entry, else `max(0, (30 - rain_7d) / 30)`. */
  function WeatherStress(weather: Weather): (s: real)
    ensures s >= 0.0
    ensures weather.NoDaily? ==> s == 0.0
  {
    if weather.NoDaily? then 0.0
    else Max(0.0, (30.0 - RainSevenDays(weather)) / 30.0)
  }

  /** A payload without `"daily"` gives no weather stress, but one whose `"daily"`
      lacks `precipitation_sum` reads as seven dry days and gives the most. */
  lemma WeatherStressOfMissingData()
    ensures WeatherStress(NoDaily) == 0.0
    ensures WeatherStress(Daily(None)) == 1.0
  {
    assert RainSevenDays(Daily(None)) == SumReals([0.0]);
  }

  /** With non-negative daily amounts the weather factor is at most 1. */
  lemma WeatherStressAtMostOne(weather: Weather)
    requires weather.Daily? && weather.precipitationSum.Some?
    requires forall i :: 0 <= i < |weather.precipitationSum.value| ==> weather.precipitationSum.value[i] >= 0.0
    ensures WeatherStress(weather) <= 1.0
  {
    var amounts := weather.precipitationSum.value;
    var window := if |amounts| <= RainWindowDays then amounts else amounts[..RainWindowDays];
    SumRealsNonNegative(window);
  }

  /** With no water_days below 0 the water factor is at most 1. */
  lemma WaterStressAtMostOne(nearby: seq<Herd>)
    requires forall h <- nearby :: h.waterDays.Some? && h.waterDays.value >= 0
    ensures WaterStress(nearby) <= 1.0
  {
    if nearby != [] {
      SumWaterDaysNonNegative(nearby);
      assert SumWaterDays(nearby) as real / |nearby| as real >= 0.0;
    }
  }

  /** With no NDVI reading below 0 the NDVI factor is at most 1. */
  lemma NdviStressAtMostOne(nearby: seq<Herd>)
    requires forall h <- nearby :: h.ndvi.Some? && h.ndvi.value >= 0.0
    ensures NdviStress(nearby) <= 1.0
  {
    if nearby != [] {
      SumNdviNonNegative(nearby);
      assert SumNdvi(nearby) / |nearby| as real >= 0.0;
    }
  }

  /** NDVI is a ratio in [-1, 1]: a single nearby herd reading -1 pushes the NDVI
      factor to 3, and with the other factors and the prior at 1 the modifier
      exceeds 1. */
  lemma NdviStressCanExceedOne()
    ensures NdviStress([Herd("h", 0.0, 0.0, None, Some(0), Some(-1.0))]) == 3.0
    ensures Modifier(Factors(1.0, 1.0, 3.0, 1.0), 1.0) > 1.0
  {
    var herds := [Herd("h", 0.0, 0.0, None, Some(0), Some(-1.0))];
    assert herds[1..] == [];
    assert SumNdvi(herds) == -1.0;
  }

  /** The four factors, or the KeyError that the sums over the nearby herds raise:
      `h["water_days"]` is summed first, then `h["ndvi"]`. */
  function StressFactors(nearby: seq<Herd>, weather: Weather): (r: Result<Factors>)
    ensures r.KeyError? <==> exists h <- nearby :: h.waterDays.None? || h.ndvi.None?
    ensures r.KeyError? && (exists h <- nearby :: h.waterDays.None?) ==> r.key == "water_days"
    ensures r.KeyError? && (forall h <- nearby :: h.waterDays.Some?) ==> r.key == "ndvi"
    ensures r.Ok? ==> 0.0 <= r.value.herdConvergence <= 1.0 && r.value.waterStress >= 0.0
                      && r.value.ndviStress >= 0.0 && r.value.weatherStress >= 0.0
    ensures nearby == [] ==> r == Ok(Factors(0.0, 0.0, 0.0, WeatherStress(weather)))
  {
    if exists h <- nearby :: h.waterDays.None? then KeyError("water_days")
    else if exists h <- nearby :: h.ndvi.None? then KeyError("ndvi")
    else Ok(Factors(Convergence(|nearby|), WaterStress(nearby), NdviStress(nearby), WeatherStress(weather)))
  }

  // ---------------------------------------------------------------- score

  /** `zone.get("risk_score", 50)`. */
  function BaseRisk(zone: Zone): (base: real)
    ensures zone.riskScore.None? ==> base == 50.0
    ensures zone.riskScore.Some? ==> base == zone.riskScore.value
  {
    zone.riskScore.GetOr(DefaultBaseRisk)
  }

  /** `zone["prediction_factors"].get("historical_violence", 0.5)`. */
  function HistoricalViolence(zone: Zone): (hv: real)
    ensures "historical_violence" !in zone.predictionFactors ==> hv == 0.5
    ensures "historical_violence" in zone.predictionFactors ==> hv == zone.predictionFactors["historical_violence"]
  {
    if "historical_violence" in zone.predictionFactors then zone.predictionFactors["historical_violence"]
    else DefaultHistoricalViolence
  }

  /** `risk_modifiers`: the weighted sum of the four factors and the historical prior. */
  function Modifier(f: Factors, hv: real): (m: real)
    ensures f == Factors(0.0, 0.0, 0.0, 0.0) ==> m * 100.0 == hv * 15.0
    ensures f == Factors(1.0, 1.0, 1.0, 1.0) && hv == 1.0 ==> m == 1.0
  {
    f.herdConvergence * 0.25 + f.waterStress * 0.25 + f.ndviStress * 0.20 + f.weatherStress * 0.15 + hv * 0.15
  }

  /** With every factor and the prior in [0, 1] the modifier is in [0, 1]: the
      weights add up to 1. */
  lemma ModifierUnitRange(f: Factors, hv: real)
    requires 0.0 <= f.herdConvergence <= 1.0 && 0.0 <= f.waterStress <= 1.0
    requires 0.0 <= f.ndviStress <= 1.0 && 0.0 <= f.weatherStress <= 1.0 && 0.0 <= hv <= 1.0
    ensures 0.0 <= Modifier(f, hv) <= 1.0
  {
  }

  /** `base_risk * (0.7 + risk_modifiers * 0.6)`, before the clamp. */
  function UnclampedRisk(base: real, modifier: real): (risk: real)
    ensures modifier == 0.5 ==> risk == base
  {
    base * (0.7 + modifier * 0.6)
  }

  /** `min(100, max(0, base_risk * (0.7 + risk_modifiers * 0.6)))`. */
  function AdjustedRisk(base: real, modifier: real): (risk: real)
    ensures 0.0 <= risk <= 100.0
    ensures 0.0 <= UnclampedRisk(base, modifier) <= 100.0 ==> risk == UnclampedRisk(base, modifier)
  {
    Clamp100(UnclampedRisk(base, modifier))
  }

  /** With a non-negative base and modifier the unclamped score keeps at least 70%
      of the base: live signals only ever add to the dampened prior. */
  lemma UnclampedRiskAtLeast70Percent(base: real, modifier: real)
    requires base >= 0.0 && modifier >= 0.0
    ensures UnclampedRisk(base, modifier) >= 0.7 * base
  {
    MulMonotoneLeft(base, 0.7, 0.7 + modifier * 0.6);
    assert base * 0.7 == 0.7 * base;
  }

  /** For a zone with a non-negative base risk and historical prior, the factors
      of its nearby herds keep the unclamped score at no less than 70% of the base. */
  lemma ZoneScoreAtLeast70Percent(herds: seq<Herd>, weather: Weather, zone: Zone)
    requires StressFactors(Nearby(herds, zone), weather).Ok?
    requires BaseRisk(zone) >= 0.0 && HistoricalViolence(zone) >= 0.0
    ensures UnclampedRisk(BaseRisk(zone), Modifier(StressFactors(Nearby(herds, zone), weather).value, HistoricalViolence(zone)))
            >= 0.7 * BaseRisk(zone)
  {
    var f := StressFactors(Nearby(herds, zone), weather).value;
    UnclampedRiskAtLeast70Percent(BaseRisk(zone), Modifier(f, HistoricalViolence(zone)));
  }

  /** With a modifier of at most 1 the unclamped score is at most 130% of a
      non-negative base. */
  lemma UnclampedRiskAtMost130Percent(base: real, modifier: real)
    requires base >= 0.0 && modifier <= 1.0
    ensures UnclampedRisk(base, modifier) <= 1.3 * base
  {
    MulMonotoneLeft(base, 0.7 + modifier * 0.6, 1.3);
    assert base * 1.3 == 1.3 * base;
  }

  lemma UnclampedRiskMonotone(base: real, m1: real, m2: real)
    requires base >= 0.0 && m1 <= m2
    ensures UnclampedRisk(base, m1) <= UnclampedRisk(base, m2)
  {
    MulMonotoneLeft(base, 0.7 + m1 * 0.6, 0.7 + m2 * 0.6);
  }

  /** With a non-negative base, higher stress never lowers the assessed risk. */
  lemma AdjustedRiskMonotone(base: real, m1: real, m2: real)
    requires base >= 0.0 && m1 <= m2
    ensures AdjustedRisk(base, m1) <= AdjustedRisk(base, m2)
  {
    assert UnclampedRisk(base, m1) <= UnclampedRisk(base, m2) by {
      UnclampedRiskMonotone(base, m1, m2);
    }
    Clamp100Monotone(UnclampedRisk(base, m1), UnclampedRisk(base, m2));
  }

  /** The clamped, unrounded score of a zone given its factors. */
  function ZoneScore(zone: Zone, f: Factors): (score: real)
    ensures 0.0 <= score <= 100.0
  {
    AdjustedRisk(BaseRisk(zone), Modifier(f, HistoricalViolence(zone)))
  }

  /** The level thresholds: 80 and above Critical, 60 High, 40 Medium, else Low. */
  function LevelOf(score: real): (level: Level)
    ensures level == Critical <==> score >= 80.0
    ensures level == High <==> 60.0 <= score < 80.0
    ensures level == Medium <==> 40.0 <= score < 60.0
    ensures level == Low <==> score < 40.0
  {
    if score >= 80.0 then Critical
    else if score >= 60.0 then High
    else if score >= 40.0 then Medium
    else Low
  }

  /** The level is a step function of the score: a higher score never gets a lower level. */
  lemma LevelMonotone(s: real, t: real)
    requires s <= t
    ensures LevelOf(s).Rank() <= LevelOf(t).Rank()
  {
  }

  /** `round(convergence_factor, 2)` and the like: the factors as reported. */
  function RoundedFactors(f: Factors): (g: Factors)
    ensures -0.005 <= g.herdConvergence - f.herdConvergence <= 0.005
    ensures -0.005 <= g.waterStress - f.waterStress <= 0.005
    ensures -0.005 <= g.ndviStress - f.ndviStress <= 0.005
    ensures -0.005 <= g.weatherStress - f.weatherStress <= 0.005
  {
    RoundTwoDigitsError(f.herdConvergence);
    RoundTwoDigitsError(f.waterStress);
    RoundTwoDigitsError(f.ndviStress);
    RoundTwoDigitsError(f.weatherStress);
    Factors(Round(f.herdConvergence, 2), Round(f.waterStress, 2), Round(f.ndviStress, 2), Round(f.weatherStress, 2))
  }

  // ---------------------------------------------------------------- assessment

  /** The assessed zone of `calculate_conflict_risk(herds, weather, zone)`: the zone
      unchanged, the reported risk rounded to one decimal, the level of the
      unrounded score, the number of nearby herds and the rounded factors. */
  function Assess(herds: seq<Herd>, weather: Weather, zone: Zone): (r: Result<AssessedZone>)
    ensures r.KeyError? <==> exists h <- Nearby(herds, zone) :: h.waterDays.None? || h.ndvi.None?
    ensures r.Ok? ==> r.value.zone == zone && r.value.nearbyHerds == |Nearby(herds, zone)| <= |herds|
    ensures r.Ok? ==> r.value.factors == RoundedFactors(StressFactors(Nearby(herds, zone), weather).value)
    ensures r.Ok? ==> 0.0 <= r.value.realTimeRisk <= 100.0
    ensures r.Ok? ==>
              var score := ZoneScore(zone, StressFactors(Nearby(herds, zone), weather).value);
              r.value.realTimeLevel == LevelOf(score) && -0.05 <= r.value.realTimeRisk - score <= 0.05
    ensures r.Ok? ==> r.value.realTimeRisk == Round(ZoneScore(zone, StressFactors(Nearby(herds, zone), weather).value), 1)
  {
    var nearby := Nearby(herds, zone);
    match StressFactors(nearby, weather)
    case KeyError(k) => KeyError(k)
    case Ok(f) =>
      var score := ZoneScore(zone, f);
      RoundWithin(score, 1, 0, 100);
      RoundOneDigitError(score);
      Ok(AssessedZone(zone, Round(score, 1), LevelOf(score), |nearby|, RoundedFactors(f)))
  }

  /** The factors an assessment reports are never negative, the convergence factor
      is at most 1, each is within 0.005 of the factor it rounds, and with no herd
      nearby the convergence, water and NDVI factors are 0. */
  lemma ReportedFactorsInRange(herds: seq<Herd>, weather: Weather, zone: Zone)
    requires Assess(herds, weather, zone).Ok?
    ensures var f := Assess(herds, weather, zone).value.factors;
            && 0.0 <= f.herdConvergence <= 1.0
            && f.waterStress >= 0.0 && f.ndviStress >= 0.0 && f.weatherStress >= 0.0
    ensures var f := Assess(herds, weather, zone).value.factors;
            var exact := StressFactors(Nearby(herds, zone), weather).value;
            && -0.005 <= f.herdConvergence - exact.herdConvergence <= 0.005
            && -0.005 <= f.waterStress - exact.waterStress <= 0.005
            && -0.005 <= f.ndviStress - exact.ndviStress <= 0.005
            && -0.005 <= f.weatherStress - exact.weatherStress <= 0.005
    ensures Nearby(herds, zone) == [] ==>
              var f := Assess(herds, weather, zone).value.factors;
              f.herdConvergence == 0.0 && f.waterStress == 0.0 && f.ndviStress == 0.0
  {
    var exact := StressFactors(Nearby(herds, zone), weather).value;
    RoundWithin(exact.herdConvergence, 2, 0, 1);
    RoundWithin(exact.waterStress, 2, 0, exact.waterStress.Floor + 1);
    RoundWithin(exact.ndviStress, 2, 0, exact.ndviStress.Floor + 1);
    RoundWithin(exact.weatherStress, 2, 0, exact.weatherStress.Floor + 1);
    if Nearby(herds, zone) == [] {
      RoundWithin(0.0, 2, 0, 0);
    }
  }

  /** `calculate_conflict_risk`: collects the nearby herds in one pass over the
      herd list, then computes the factors, the score and the level. */
  method CalculateConflictRisk(herds: seq<Herd>, weather: Weather, zone: Zone) returns (r: Result<AssessedZone>)
    ensures r == Assess(herds, weather, zone)
  {
    var nearby: seq<Herd> := [];
    var i := 0;
    while i < |herds|
      invariant 0 <= i <= |herds|
      invariant nearby == Nearby(herds[..i], zone)
    {
      var h := herds[i];
      assert herds[..i + 1][..i] == herds[..i];
      if InRange(h, zone) {
        nearby := nearby + [h];
      }
      i := i + 1;
    }
    assert herds[..|herds|] == herds;
    var factors := StressFactors(nearby, weather);
    if factors.KeyError? {
      return KeyError(factors.key);
    }
    var score := ZoneScore(zone, factors.value);
    r := Ok(AssessedZone(zone, Round(score, 1), LevelOf(score), |nearby|, RoundedFactors(factors.value)));
  }

  /** With no herds the zone gets no convergence, water or NDVI stress, and the
      base risk is scaled by the weather and historical terms alone. */
  lemma AssessWithoutHerds(weather: Weather, zone: Zone)
    ensures Assess([], weather, zone).Ok?
    ensures Assess([], weather, zone).value.nearbyHerds == 0
    ensures Assess([], weather, zone).value.realTimeLevel
            == LevelOf(AdjustedRisk(BaseRisk(zone), WeatherStress(weather) * 0.15 + HistoricalViolence(zone) * 0.15))
  {
    assert StressFactors([], weather) == Ok(Factors(0.0, 0.0, 0.0, WeatherStress(weather)));
  }

  /** The level is taken before rounding: a score of 79.96 is reported as 80.0 but
      labelled High, while 80.0 itself is Critical. */
  lemma RoundingCrossesLevelBoundary()
    ensures Round(79.96, 1) == 80.0 && LevelOf(79.96) == High
    ensures LevelOf(80.0) == Critical && LevelOf(79.9) == High
  {
    assert Scale(1) == 10.0;
    assert NearestEven(799.6) == 800;
  }

  /** When every herd is in range the nearby list is the whole herd list. */
  lemma {:induction false} NearbyAllInRange(herds: seq<Herd>, zone: Zone)
    requires forall h <- herds :: InRange(h, zone)
    ensures Nearby(herds, zone) == herds
  {
    if herds != [] {
      var init := herds[..|herds| - 1];
      NearbyAllInRange(init, zone);
      assert herds == init + [herds[|herds| - 1]];
    }
  }

  /** Three herds at the centre of a zone with base risk 50 and historical prior
      0.5, none with water or pasture, after seven dry days: every factor is 1,
      the modifier is 0.925 and the score 50 * 1.255 = 62.75, reported as 62.8 (the
      tie goes to the even tenth) and labelled High. */
  lemma ThreeStressedHerdsScenario()
    ensures var zone := Zone("Z", "Zone", 7.0, 30.0, 45000.0, "High", Some(50.0), map["historical_violence" := 0.5]);
            var herd := Herd("H", 7.0, 30.0, Some(1000), Some(0), Some(0.0));
            Assess([herd, herd, herd], Daily(Some([0.0, 0.0, 0.0, 0.0, 0.0, 0.0, 0.0])), zone)
            == Ok(AssessedZone(zone, 62.8, High, 3, Factors(1.0, 1.0, 1.0, 1.0)))
  {
    var zone := Zone("Z", "Zone", 7.0, 30.0, 45000.0, "High", Some(50.0), map["historical_violence" := 0.5]);
    var herd := Herd("H", 7.0, 30.0, Some(1000), Some(0), Some(0.0));
    var herds := [herd, herd, herd];
    var weather := Daily(Some([0.0, 0.0, 0.0, 0.0, 0.0, 0.0, 0.0]));
    assert InRange(herd, zone);
    NearbyAllInRange(herds, zone);
    var f := Factors(1.0, 1.0, 1.0, 1.0);
    assert StressFactors(herds, weather) == Ok(f) by {
      ScenarioSums(herd);
      assert RainSevenDays(weather) == 0.0;
    }
    assert ZoneScore(zone, f) == 62.75 by {
      assert Modifier(f, 0.5) == 0.925;
    }
    assert Round(62.75, 1) == 62.8 by {
      assert Scale(1) == 10.0 && NearestEven(627.5) == 628;
    }
    assert RoundedFactors(f) == f by {
      assert Scale(2) == 100.0 && NearestEven(100.0) == 100;
    }
  }

  lemma ScenarioSums(herd: Herd)
    requires herd.waterDays == Some(0) && herd.ndvi == Some(0.0)
    ensures SumWaterDays([herd, herd, herd]) == 0 && SumNdvi([herd, herd, herd]) == 0.0
  {
    var one, two, three := [herd], [herd, herd], [herd, herd, herd];
    assert herd.ndvi.GetOr(0.0) == 0.0 && SumNdvi([]) == 0.0 && SumWaterDays([]) == 0;
    assert one[0] == herd && one[1..] == [];
    assert SumWaterDays(one) == 0 && SumNdvi(one) == 0.0;
    assert two[0] == herd && two[1..] == one;
    assert SumWaterDays(two) == 0 && SumNdvi(two) == 0.0;
    assert three[0] == herd && three[1..] == two;
  }
}
