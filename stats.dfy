/** The aggregate endpoints of backend/server.py: the dashboard statistics of
    `GET /api/stats` and the backtesting summary of `GET /api/historical-conflicts`. */
module Stats {
  import opened BovineTypes
  import opened Numeric
  import opened Herds
  import opened ConflictRisk

  // ---------------------------------------------------------------- dashboard

  /** `sum(h.get("ndvi", 0) for h in herds) / len(herds) if herds else 0`. */
  function AverageNdvi(herds: seq<Herd>): (avg: real)
    ensures herds == [] ==> avg == 0.0
    ensures herds != [] ==> avg * |herds| as real == SumNdvi(herds)
  {
    if herds == [] then 0.0 else SumNdvi(herds) / |herds| as real
  }

  /** The average of readings that all lie in [lo, hi] lies in [lo, hi]. */
  lemma AverageNdviWithin(herds: seq<Herd>, lo: real, hi: real)
    requires herds != []
    requires forall h <- herds :: lo <= h.ndvi.GetOr(0.0) <= hi
    ensures lo <= AverageNdvi(herds) <= hi
  {
    SumNdviBounds(herds, lo, hi);
    MeanWithin(SumNdvi(herds), |herds| as real, lo, hi);
  }

  /** `len([z for z in zones if z["risk_level"] == tag])`: zones counted by their
      static label, not by a real-time assessment. */
  function CountRiskLabel(zones: seq<Zone>, tag: string): (n: nat)
    ensures n <= |zones|
    ensures (forall z <- zones :: z.riskLevel != tag) ==> n == 0
  {
    if zones == [] then 0
    else (if zones[0].riskLevel == tag then 1 else 0) + CountRiskLabel(zones[1..], tag)
  }

  /** A zone carries one label, so two different labels together count at most
      every zone once. */
  lemma {:induction false} DistinctLabelsAtMostAll(zones: seq<Zone>, l1: string, l2: string)
    requires l1 != l2
    ensures CountRiskLabel(zones, l1) + CountRiskLabel(zones, l2) <= |zones|
  {
    if zones != [] {
      DistinctLabelsAtMostAll(zones[1..], l1, l2);
    }
  }

  lemma {:induction false} CountRiskLabelAppend(a: seq<Zone>, b: seq<Zone>, tag: string)
    ensures CountRiskLabel(a + b, tag) == CountRiskLabel(a, tag) + CountRiskLabel(b, tag)
  {
    if a == [] {
      assert a + b == b;
    } else {
      assert (a + b)[1..] == a[1..] + b;
      CountRiskLabelAppend(a[1..], b, tag);
    }
  }

  /** The response of `GET /api/stats`, without its timestamp. */
  datatype DashboardStats = DashboardStats(
    totalHerds: nat,
    totalCattle: int,
    avgNdvi: real,
    rain7DayMm: real,
    highPressureHerds: nat,
    criticalConflictZones: nat,
    highRiskZones: nat)

  /** `get_dashboard_stats`: the herd figures over the herds the store yields (or
      `INITIAL_HERDS`), the seven-day rain of the weather payload, and the static
      Critical and High labels of the zone table. */
  function GetDashboardStats(stored: seq<Herd>, initial: seq<Herd>, weather: Weather, zones: seq<Zone>)
    : (s: DashboardStats)
    ensures s.totalHerds == |EffectiveHerds(stored, initial)|
    ensures stored != [] ==> s.totalHerds <= StoreReadLimit
    ensures s.totalCattle == TotalHeads(EffectiveHerds(stored, initial))
    ensures s.highPressureHerds == CountHighPressure(EffectiveHerds(stored, initial)) <= s.totalHerds
    ensures s.criticalConflictZones == CountRiskLabel(zones, Critical.Name())
    ensures s.highRiskZones == CountRiskLabel(zones, High.Name())
    ensures s.criticalConflictZones + s.highRiskZones <= |zones|
    ensures s.avgNdvi == Round(AverageNdvi(EffectiveHerds(stored, initial)), 2)
    ensures -0.005 <= s.avgNdvi - AverageNdvi(EffectiveHerds(stored, initial)) <= 0.005
    ensures s.rain7DayMm == Round(RainSevenDays(weather), 1)
    ensures -0.05 <= s.rain7DayMm - RainSevenDays(weather) <= 0.05
  {
    var herds := EffectiveHerds(stored, initial);
    DistinctLabelsAtMostAll(zones, Critical.Name(), High.Name());
    RoundTwoDigitsError(AverageNdvi(herds));
    RoundOneDigitError(RainSevenDays(weather));
    DashboardStats(
      |herds|,
      TotalHeads(herds),
      Round(AverageNdvi(herds), 2),
      Round(RainSevenDays(weather), 1),
      CountHighPressure(herds),
      CountRiskLabel(zones, Critical.Name()),
      CountRiskLabel(zones, High.Name()))
  }

  /** With every stored NDVI reading in [0, 1], the reported average is in [0, 1]:
      rounding to two places never leaves that range. */
  lemma DashboardNdviInUnitRange(stored: seq<Herd>, initial: seq<Herd>, weather: Weather, zones: seq<Zone>)
    requires forall h <- EffectiveHerds(stored, initial) :: 0.0 <= h.ndvi.GetOr(0.0) <= 1.0
    ensures 0.0 <= GetDashboardStats(stored, initial, weather, zones).avgNdvi <= 1.0
  {
    var herds := EffectiveHerds(stored, initial);
    if herds != [] {
      AverageNdviWithin(herds, 0.0, 1.0);
    }
    RoundWithin(AverageNdvi(herds), 2, 0, 1);
  }

  /** With no negative daily amount the reported rain is never negative. */
  lemma DashboardRainNonNegative(stored: seq<Herd>, initial: seq<Herd>, weather: Weather, zones: seq<Zone>)
    requires weather.Daily? && weather.precipitationSum.Some? ==>
               forall i :: 0 <= i < |weather.precipitationSum.value| ==> weather.precipitationSum.value[i] >= 0.0
    ensures GetDashboardStats(stored, initial, weather, zones).rain7DayMm >= 0.0
  {
    var rain := RainSevenDays(weather);
    assert rain >= 0.0 by {
      if weather.Daily? {
        var amounts := weather.precipitationSum.GetOr([0.0]);
        var window := if |amounts| <= RainWindowDays then amounts else amounts[..RainWindowDays];
        assert forall i :: 0 <= i < |window| ==> window[i] >= 0.0;
        SumRealsNonNegative(window);
      }
    }
    RoundWithin(rain, 1, 0, rain.Floor + 1);
  }

  // ---------------------------------------------------------------- history

  /** A recorded incident of `HISTORICAL_CONFLICTS`, as far as the summary reads it. */
  datatype Incident = Incident(date: string, location: string, casualties: int, cattleStolen: int)

  /** `sum(c["casualties"] for c in conflicts)`. */
  function TotalCasualties(incidents: seq<Incident>): (t: int)
    ensures (forall c <- incidents :: c.casualties >= 0) ==> t >= 0
  {
    if incidents == [] then 0 else incidents[0].casualties + TotalCasualties(incidents[1..])
  }

  /** `sum(c["cattle_stolen"] for c in conflicts)`. */
  function TotalCattleStolen(incidents: seq<Incident>): (t: int)
    ensures (forall c <- incidents :: c.cattleStolen >= 0) ==> t >= 0
  {
    if incidents == [] then 0 else incidents[0].cattleStolen + TotalCattleStolen(incidents[1..])
  }

  /** Totals over two runs of incidents together are the sums of their totals. */
  lemma {:induction false} TotalsAppend(a: seq<Incident>, b: seq<Incident>)
    ensures TotalCasualties(a + b) == TotalCasualties(a) + TotalCasualties(b)
    ensures TotalCattleStolen(a + b) == TotalCattleStolen(a) + TotalCattleStolen(b)
  {
    if a == [] {
      assert a + b == b;
    } else {
      assert (a + b)[1..] == a[1..] + b;
      TotalsAppend(a[1..], b);
    }
  }

  /** Every single incident's figures are bounded by the totals when none is negative. */
  lemma {:induction false} IncidentWithinTotals(incidents: seq<Incident>, i: nat)
    requires i < |incidents|
    requires forall c <- incidents :: c.casualties >= 0 && c.cattleStolen >= 0
    ensures incidents[i].casualties <= TotalCasualties(incidents)
    ensures incidents[i].cattleStolen <= TotalCattleStolen(incidents)
  {
    if i > 0 {
      assert incidents[1..][i - 1] == incidents[i];
      IncidentWithinTotals(incidents[1..], i - 1);
    }
  }

  /** The response of `GET /api/historical-conflicts`. */
  datatype HistoricalReport = HistoricalReport(
    conflicts: seq<Incident>,
    count: nat,
    totalCasualties: int,
    totalCattleStolen: int)

  /** `get_historical_conflicts` over a given incident table. */
  function GetHistoricalConflicts(incidents: seq<Incident>): (r: HistoricalReport)
    ensures r.conflicts == incidents && r.count == |incidents|
    ensures r.totalCasualties == TotalCasualties(incidents) && r.totalCattleStolen == TotalCattleStolen(incidents)
    ensures (forall c <- incidents :: c.casualties >= 0 && c.cattleStolen >= 0) ==>
              r.totalCasualties >= 0 && r.totalCattleStolen >= 0
  {
    HistoricalReport(incidents, |incidents|, TotalCasualties(incidents), TotalCattleStolen(incidents))
  }

  /** The incident table the service ships. */
  function HistoricalConflicts(): (table: seq<Incident>)
    ensures |table| == 10
    ensures forall c <- table :: c.casualties >= 0 && c.cattleStolen >= 0
  {
    [ Incident("2024-12-15", "Pibor", 45, 2500),
      Incident("2024-12-01", "Malakal", 12, 800),
      Incident("2024-11-28", "Tonj East", 8, 450),
      Incident("2024-11-15", "Pibor", 23, 1800),
      Incident("2024-10-20", "Sobat River", 6, 200),
      Incident("2024-09-10", "Bentiu", 15, 950),
      Incident("2024-08-15", "Aweil", 10, 600),
      Incident("2024-07-22", "Pibor", 67, 3200),
      Incident("2024-06-20", "Rumbek", 2, 50),
      Incident("2024-05-05", "Jonglei", 35, 1500) ]
  }

  /** The shipped table reports ten incidents, 223 casualties and 12050 cattle stolen. */
  lemma {:induction false} ShippedHistoryTotals()
    ensures GetHistoricalConflicts(HistoricalConflicts()) == HistoricalReport(HistoricalConflicts(), 10, 223, 12050)
  {
    var t := HistoricalConflicts();
    assert t[10..] == [];
    assert t[9..][1..] == t[10..];
    assert TotalCasualties(t[9..]) == 35 && TotalCattleStolen(t[9..]) == 1500;
    assert t[8..][1..] == t[9..];
    assert TotalCasualties(t[8..]) == 37 && TotalCattleStolen(t[8..]) == 1550;
    assert t[7..][1..] == t[8..];
    assert TotalCasualties(t[7..]) == 104 && TotalCattleStolen(t[7..]) == 4750;
    assert t[6..][1..] == t[7..];
    assert TotalCasualties(t[6..]) == 114 && TotalCattleStolen(t[6..]) == 5350;
    assert t[5..][1..] == t[6..];
    assert TotalCasualties(t[5..]) == 129 && TotalCattleStolen(t[5..]) == 6300;
    assert t[4..][1..] == t[5..];
    assert TotalCasualties(t[4..]) == 135 && TotalCattleStolen(t[4..]) == 6500;
    assert t[3..][1..] == t[4..];
    assert TotalCasualties(t[3..]) == 158 && TotalCattleStolen(t[3..]) == 8300;
    assert t[2..][1..] == t[3..];
    assert TotalCasualties(t[2..]) == 166 && TotalCattleStolen(t[2..]) == 8750;
    assert t[1..][1..] == t[2..];
    assert TotalCasualties(t[1..]) == 178 && TotalCattleStolen(t[1..]) == 9550;
    assert t[0..][1..] == t[1..];
    assert TotalCasualties(t[0..]) == 223 && TotalCattleStolen(t[0..]) == 12050;
    assert t[0..] == t;
  }
}
