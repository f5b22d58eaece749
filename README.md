# Conflict-risk scoring of the cattle-movement service, in Dafny

This project models the decision logic of the service's backend
(`backend/server.py`).

- **`calculate_conflict_risk`** scores one conflict zone against the tracked
  herds and the weather payload:
  - herd convergence inside twice the zone radius
  - water stress, NDVI (vegetation) stress and seven-day precipitation stress
  - a weighted modifier applied to the zone's base risk
  - a clamp to [0, 100] and a four-level label
- **`GET /api/conflict-zones`** assesses every zone and ranks them by a stable
  descending sort on the real-time risk. It then counts the Critical and High
  assessments.
- **`GET /api/stats`** reports dashboard aggregates over the herds, the weather
  payload and the zone table.
- **`GET /api/historical-conflicts`** sums the recorded incidents.

Modules:

| file | module | contents |
|---|---|---|
| `types.dfy` | `BovineTypes` | herd and zone documents, the weather payload, levels, factors, the assessed zone, `Option`, and `Result` (a value, or the key whose lookup raised `KeyError`) |
| `numeric.dfy` | `Numeric` | `min`/`max`, the clamp, `sum`, and Python's `round(x, n)` over exact reals (round half to even) |
| `herds.dfy` | `Herds` | the herd list an endpoint works on (at most 100 stored documents, else the built-in table), and the sums and counts over it |
| `risk.dfy` | `ConflictRisk` | `calculate_conflict_risk`: the nearby filter, the factors, the score, the level, and the function and loop that assess one zone |
| `ranking.dfy` | `Ranking` | `get_conflict_zones`: the per-zone loop, the stable sort (specified as a function, carried out as an in-place insertion sort on an array), and the level counts |
| `stats.dfy` | `Stats` | `get_dashboard_stats` and `get_historical_conflicts` |

Modelling choices:

- **Floats become Dafny `real`.** Python's `round` is round half to even on
  exact values.
- **No square roots.** The distance test `sqrt(d) < 2r/111000` is stated as
  `2r/111000 > 0 && d < (2r/111000)^2`. `InRangeIsDistanceTest` proves this
  equivalent to the root test for every non-negative root.
- **Optional fields become `Option`.** A herd field that may be absent
  (`heads`, `water_days`, `ndvi`) is an `Option`, and a zone's `risk_score` is
  one too. Where the code reads such a field with a default
  (`h.get("water_days", 10)`) the model reads the default. Where it reads
  `h["water_days"]` or `h["ndvi"]` of a nearby herd and the field is absent,
  Python raises `KeyError`, and the model returns that error as
  `Result.KeyError`. Every other field the core reads with `[...]` is a
  required field of the model's datatypes, so it cannot be absent (see
  "Left out").
- **Collaborators become parameters.** The database read, the built-in
  `INITIAL_HERDS`, `CONFLICT_ZONES` and `HISTORICAL_CONFLICTS` tables, and the
  result of `fetch_weather_data` are inputs. The incident table is also
  written out, with its totals proved.

Behaviours of the code that the model keeps and proves:

- **Level from the unrounded score.** The level is computed from the
  unrounded score, so a zone reported at `80.0` can be labelled High
  (`RoundingCrossesLevelBoundary`).
- **The modifier is not bounded by 1.** NDVI is not clamped, so a negative
  reading gives an NDVI factor above 1, and with the other factors and the
  prior at 1 the modifier then exceeds 1 (`NdviStressCanExceedOne`). The
  modifier is in [0, 1] when every factor and the historical prior are
  (`ModifierUnitRange`).
- **Errors reach the caller.** A nearby herd that lacks `water_days` or
  `ndvi` makes the assessment raise `KeyError`, and the whole zone list then
  fails (`ConflictZonesReportRaises`).
- **A missing precipitation list reads as drought.** A `"daily"` entry
  without `precipitation_sum` reads as `[0]`: a zero seven-day total, so
  weather factor 1, the largest possible with non-negative amounts
  (`WeatherStressOfMissingData`, `WeatherStressAtMostOne`).
- **Dashboard zone counts use static labels.** The dashboard counts zones by
  their static `risk_level` label, not by the real-time level that
  `/api/conflict-zones` computes.

## Model

| member | source | states |
|---|---|---|
| `Numeric.Clamp100` | backend/server.py:678 | `min(100, max(0, x))` is in [0, 100], is `x` inside that range, 0 below it and 100 above it |
| `Numeric.Clamp100Monotone` | backend/server.py:678 | the clamp preserves order |
| `Numeric.Round` | backend/server.py:692 | `round(x, n)` is within half a unit of the n-th decimal place of `x` |
| `Numeric.NearestEven` | backend/server.py:692 | the rounding step: the nearest integer, at most 0.5 away, the floor or the floor plus one (the latter only above an integer), and the even one of the two at a tie |
| `Numeric.RoundOneDigitError` | backend/server.py:692 | `round(x, 1)` is within 0.05 of `x` |
| `Numeric.RoundTwoDigitsError` | backend/server.py:696-699 | `round(x, 2)` is within 0.005 of `x` |
| `Numeric.RoundWithin` | backend/server.py:692 | rounding a value between two integers stays between them, so a score in [0, 100] stays in [0, 100] |
| `Numeric.SumRealsAppend` | backend/server.py:665 | `sum` of a concatenation is the sum of the sums |
| `Numeric.SumRealsNonNegative` | backend/server.py:665 | a sum of non-negative amounts is non-negative |
| `Numeric.MeanWithin` | backend/server.py:851 | a total of n values in [lo, hi], divided by n, is in [lo, hi] |
| `Herds.EffectiveHerds` | backend/server.py:786-788 | an empty store gives the built-in herds; otherwise the stored herds when there are at most 100, and exactly the first 100 when there are more |
| `Herds.TotalHeads` | backend/server.py:850 | `sum(h.get("heads", 0))` is non-negative when no herd has a negative head count |
| `Herds.UnderWaterPressure` | backend/server.py:868 | a herd without `water_days` (default 10) is never under pressure; one with `water_days` is exactly when it has at most 3 days |
| `Herds.CountHighPressure` | backend/server.py:868 | the number of herds with `water_days` (default 10) at most 3 is at most the number of herds |
| `Herds.CountHighPressureStep` | backend/server.py:868 | a herd without `water_days` is never counted, one with at most 3 days always is, one with more never is |
| `Herds.CountHighPressureAppend` | backend/server.py:868 | the count over a concatenation is the sum of the counts |
| `Herds.TotalHeadsAppend` | backend/server.py:850 | the cattle total over a concatenation is the sum of the totals |
| `Herds.TotalHeadsIgnoresMissing` | backend/server.py:850 | a herd without `heads` adds nothing to the cattle total |
| `Herds.SumWaterDaysNonNegative` | backend/server.py:653 | the `water_days` sum of non-negative readings is non-negative |
| `Herds.SumNdviNonNegative` | backend/server.py:659 | the NDVI sum of non-negative readings is non-negative |
| `Herds.SumNdviBounds` | backend/server.py:659 | the NDVI sum of n readings in [lo, hi] is between n·lo and n·hi |
| `ConflictRisk.RadiusDegrees` | backend/server.py:641 | the radius in degrees times 111000 is the radius in metres, and it is positive exactly when the radius is |
| `ConflictRisk.InRange` | backend/server.py:644-645 | a zone with a non-positive radius has no herd in range; a zone with a positive radius has a herd at its centre in range |
| `ConflictRisk.SquaredDistance` | backend/server.py:644 | the squared flat-plane distance is non-negative |
| `ConflictRisk.InRangeIsDistanceTest` | backend/server.py:641-645 | the root-free test holds exactly when the distance is below twice the radius in degrees (radius / 111000) |
| `ConflictRisk.Nearby` | backend/server.py:639-646 | the nearby list is no longer than the herd list |
| `ConflictRisk.NearbyMembership` | backend/server.py:643-646 | a herd is nearby exactly when it is in the list and in range |
| `ConflictRisk.NearbyAppend` | backend/server.py:643-646 | the filter keeps input order: the nearby list of a concatenation is the concatenation of the nearby lists |
| `ConflictRisk.NearbyAllInRange` | backend/server.py:643-646 | when every herd is in range, all of them are nearby |
| `ConflictRisk.Convergence` | backend/server.py:648 | the convergence factor is in [0, 1], is 1 from three herds on, and is n/3 below three |
| `ConflictRisk.ConvergenceMonotone` | backend/server.py:648 | more nearby herds never lower the convergence factor |
| `ConflictRisk.WaterStress` | backend/server.py:651-654 | the water factor is non-negative, and 0 with no herd nearby |
| `ConflictRisk.WaterStressAtMostOne` | backend/server.py:651-654 | with non-negative `water_days` the water factor is at most 1 |
| `ConflictRisk.NdviStress` | backend/server.py:657-660 | the NDVI factor is non-negative, and 0 with no herd nearby |
| `ConflictRisk.NdviStressAtMostOne` | backend/server.py:657-660 | with non-negative NDVI readings the NDVI factor is at most 1 |
| `ConflictRisk.NdviStressCanExceedOne` | backend/server.py:657-660 | a herd reading NDVI -1 gives an NDVI factor of 3, and with that factor and every other factor and the prior at 1 the modifier exceeds 1 |
| `ConflictRisk.RainSevenDays` | backend/server.py:663-665 | 0 without `"daily"` and 0 when the list is missing (read as `[0]`); a list of at most seven amounts is summed whole |
| `ConflictRisk.RainSevenDaysIgnoresLaterDays` | backend/server.py:665 | only the first seven daily amounts count |
| `ConflictRisk.WeatherStress` | backend/server.py:663-666 | the weather factor is non-negative, and 0 without a `"daily"` entry |
| `ConflictRisk.WeatherStressOfMissingData` | backend/server.py:663-666 | no `"daily"` gives factor 0; a `"daily"` without `precipitation_sum` gives factor 1 |
| `ConflictRisk.WeatherStressAtMostOne` | backend/server.py:663-666 | with non-negative amounts the weather factor is at most 1 |
| `ConflictRisk.StressFactors` | backend/server.py:648-666 | raises exactly when a nearby herd lacks `water_days` or `ndvi`, with key `water_days` when any lacks that one and key `ndvi` otherwise; convergence in [0, 1] and every factor non-negative; with no herd nearby the first three factors are 0 |
| `ConflictRisk.BaseRisk` | backend/server.py:636 | the zone's `risk_score`, 50 when absent |
| `ConflictRisk.HistoricalViolence` | backend/server.py:674 | the zone's `historical_violence` prior, 0.5 when absent |
| `ConflictRisk.Modifier` | backend/server.py:669-675 | the weighted modifier: with every factor 0 it is 0.15 times the prior, and with every factor and the prior 1 it is 1 (the weights add up to 1) |
| `ConflictRisk.ModifierUnitRange` | backend/server.py:669-675 | with every factor and the historical prior in [0, 1], the weighted modifier is in [0, 1] |
| `ConflictRisk.UnclampedRisk` | backend/server.py:677 | a modifier of 0.5 leaves the base risk unchanged (`0.7 + 0.5 * 0.6` is 1) |
| `ConflictRisk.AdjustedRisk` | backend/server.py:677-678 | the adjusted risk is in [0, 100] and equals the unclamped product when that is in range |
| `ConflictRisk.UnclampedRiskAtLeast70Percent` | backend/server.py:677 | a non-negative modifier keeps at least 70% of a non-negative base |
| `ConflictRisk.ZoneScoreAtLeast70Percent` | backend/server.py:669-677 | for a zone with a non-negative base risk and historical prior, the modifier built from its nearby herds' factors keeps the unclamped score at least 70% of the base |
| `ConflictRisk.UnclampedRiskAtMost130Percent` | backend/server.py:677 | a modifier of at most 1 gives at most 130% of a non-negative base |
| `ConflictRisk.AdjustedRiskMonotone` | backend/server.py:669-678 | with a non-negative base a larger modifier never lowers the score |
| `ConflictRisk.ZoneScore` | backend/server.py:636-678 | the zone's score (base risk default 50, historical prior default 0.5) is in [0, 100] |
| `ConflictRisk.LevelOf` | backend/server.py:680-688 | Critical exactly from 80, High exactly on [60, 80), Medium exactly on [40, 60), Low exactly below 40 |
| `ConflictRisk.LevelMonotone` | backend/server.py:680-688 | a higher score never gets a lower level |
| `ConflictRisk.RoundedFactors` | backend/server.py:696-699 | each reported factor is within 0.005 of the factor it rounds |
| `ConflictRisk.Assess` | backend/server.py:632-701 | raises exactly when a nearby herd lacks `water_days` or `ndvi`; otherwise the zone is carried unchanged, the nearby count is the length of the nearby list (at most the herd count), the reported risk is the score rounded to one place, in [0, 100] and within 0.05 of the score, the level is the level of the score, and the factors are the rounded factors of the nearby herds |
| `ConflictRisk.ReportedFactorsInRange` | backend/server.py:648-699 | the reported factors are non-negative, the convergence factor is at most 1, each is within 0.005 of the exact factor, and with no herd nearby the convergence, water and NDVI factors are 0 |
| `ConflictRisk.CalculateConflictRisk` | backend/server.py:632-701 | the one-pass loop over the herds returns the same result as `Assess` |
| `ConflictRisk.AssessWithoutHerds` | backend/server.py:639-688 | with no herds the assessment succeeds with no nearby herds, and the level comes from the weather and historical terms alone |
| `ConflictRisk.RoundingCrossesLevelBoundary` | backend/server.py:681-692 | a score of 79.96 is reported as 80.0 but labelled High |
| `ConflictRisk.ThreeStressedHerdsScenario` | backend/server.py:632-701 | three herds with no water and no pasture after seven dry days, base risk 50 and prior 0.5: every factor 1, reported risk 62.8, level High |
| `Ranking.InsertByRisk` | backend/server.py:799 | inserting adds exactly one entry |
| `Ranking.InsertIsPermutation` | backend/server.py:799 | inserting adds exactly the inserted entry to the multiset |
| `Ranking.InsertKeepsSorted` | backend/server.py:799 | inserting into a list sorted by descending risk keeps it sorted |
| `Ranking.InsertIsStable` | backend/server.py:799 | the inserted entry goes behind every entry of equal risk |
| `Ranking.SortByRiskDesc` | backend/server.py:799 | the sorted list has the input's length |
| `Ranking.SortIsPermutation` | backend/server.py:799 | the sorted list is a permutation of the input |
| `Ranking.SortIsSorted` | backend/server.py:799 | the sorted list is in non-increasing risk |
| `Ranking.SortIsStable` | backend/server.py:799 | for every risk value the entries with that risk keep their input order, as `reverse=True` on a stable sort does |
| `Ranking.WithRiskAppend` | backend/server.py:799 | the equal-risk subsequence of a concatenation is the concatenation of the subsequences |
| `Ranking.SortInPlace` | backend/server.py:799 | the array after the in-place insertion sort is the stable descending sort of its old contents |
| `Ranking.InsertInPlace` | backend/server.py:799 | one insertion step leaves the prefix equal to the functional insertion and the rest of the array unchanged |
| `Ranking.OpenGap` | backend/server.py:799 | the shift moves exactly the lower-risk entries one place right and stops behind an entry of risk at least the inserted one |
| `Ranking.Rank` | backend/server.py:799 | sorting the list through an array gives the stable descending sort |
| `Ranking.CountLevel` | backend/server.py:804-805 | a level count is at most the number of entries |
| `Ranking.CountLevelOfSort` | backend/server.py:799-805 | sorting does not change the level counts |
| `Ranking.CriticalAndHighAtMostAll` | backend/server.py:804-805 | the Critical and High counts together are at most the number of entries |
| `Ranking.AssessEach` | backend/server.py:793-796 | a successful list has one assessment per zone |
| `Ranking.AssessEachOfAllOk` | backend/server.py:793-796 | when every zone assesses, the list is the assessments in zone order |
| `Ranking.AssessEachOfFirstError` | backend/server.py:793-796 | when the zones before one assess and that one raises, the list raises its KeyError |
| `Ranking.AssessEachPositions` | backend/server.py:793-796 | a successful list holds each zone's assessment at the zone's position |
| `Ranking.AssessEachFirstError` | backend/server.py:793-796 | a failing list raises the KeyError of the first zone that raises |
| `Ranking.AssessEachSucceeds` | backend/server.py:793-796 | the list succeeds exactly when every zone's assessment does |
| `Ranking.AssessZones` | backend/server.py:793-796 | the endpoint's loop returns exactly the list of assessments, or the first KeyError |
| `Ranking.RankedReport` | backend/server.py:798-806 | the report holds one entry per assessed zone and its count is that number |
| `Ranking.RankedReportCorrect` | backend/server.py:798-806 | the report is a permutation of the assessments, in non-increasing risk, equal risks in zone order; the Critical and High counts are those of the assessments, and together at most the count |
| `Ranking.RankedReportEntries` | backend/server.py:784-806 | when every zone's assessment succeeds, every zone's assessment is an entry of the ranked report and every entry is some zone's assessment |
| `Ranking.ConflictZonesReport` | backend/server.py:784-806 | a successful report has one entry per zone, and its count is that number |
| `Ranking.ConflictZonesReportEntries` | backend/server.py:784-806 | every zone's assessment is an entry of the report, and every entry is some zone's assessment |
| `Ranking.ConflictZonesReportRaises` | backend/server.py:784-806 | the endpoint fails exactly when some zone's assessment raises, and with the first such zone's KeyError |
| `Ranking.GetConflictZones` | backend/server.py:784-806 | the endpoint returns the ranked report |
| `Stats.AverageNdvi` | backend/server.py:851 | the average is 0 for no herds, and otherwise times the herd count gives the NDVI sum (a missing reading counting 0) |
| `Stats.AverageNdviWithin` | backend/server.py:851 | the average of readings in [lo, hi] is in [lo, hi] |
| `Stats.CountRiskLabel` | backend/server.py:860-861 | a label count is at most the number of zones, and 0 when no zone carries the label |
| `Stats.DistinctLabelsAtMostAll` | backend/server.py:860-861 | the counts of two different labels together are at most the number of zones |
| `Stats.CountRiskLabelAppend` | backend/server.py:860-861 | the label count over a concatenation is the sum of the counts |
| `Stats.GetDashboardStats` | backend/server.py:844-870 | the herd total is the size of the effective herd list (at most 100 from the store); the cattle total is `TotalHeads` of that list; the high-pressure herds are `CountHighPressure` of it, at most all herds; the Critical and High zones are the `CountRiskLabel` counts of those labels, together at most all zones; the reported NDVI average is the average rounded to two places (so within 0.005 of it) and the reported rain the seven-day sum rounded to one place (so within 0.05 of it); the zone labels counted are the names of the Critical and High levels |
| `Stats.DashboardNdviInUnitRange` | backend/server.py:851-866 | with every reading in [0, 1] the reported average is in [0, 1] |
| `Stats.DashboardRainNonNegative` | backend/server.py:853-867 | with non-negative daily amounts the reported rain is non-negative |
| `Stats.TotalCasualties` | backend/server.py:815 | the casualty total of non-negative figures is non-negative |
| `Stats.TotalCattleStolen` | backend/server.py:816 | the stolen-cattle total of non-negative figures is non-negative |
| `Stats.TotalsAppend` | backend/server.py:815-816 | both totals over a concatenation are the sums of the totals |
| `Stats.IncidentWithinTotals` | backend/server.py:815-816 | with non-negative figures, each incident's figures are at most the totals |
| `Stats.GetHistoricalConflicts` | backend/server.py:810-817 | the report lists the given incidents (as far as the model keeps them) with their count; its totals are `TotalCasualties` and `TotalCattleStolen` of the incidents, non-negative for non-negative figures |
| `Stats.HistoricalConflicts` | backend/server.py:474-485 | the shipped table has ten incidents, none with a negative casualty or stolen-cattle figure |
| `Stats.ShippedHistoryTotals` | backend/server.py:474-485 | the shipped table reports 10 incidents, 223 casualties and 12050 cattle stolen |

## Left out

- HTTP routing, FastAPI, CORS, the response timestamps (`last_updated`) and the MongoDB client are not modelled. The store read is a parameter: a list of herd documents.
- The herd endpoint writes the built-in herds into the store when it is empty. That write and the other database writes (news upserts) are left out; the endpoints modelled here only read.
- `fetch_weather_data`, `fetch_sudan_news` and the other network fetches are left out. Their result is a parameter; a failed fetch (`None`) is `Weather.NoDaily`.
- A `precipitation_sum` entry that is present but `null`, and other ill-typed payloads, make Python raise `TypeError`. They are not modelled; the model's payload is well typed.
- The LLM analysis endpoint and the other endpoints that only pass static tables or upstream JSON through are not modelled.
- IEEE-754 doubles are modelled as exact reals. Python's `round` on a binary double can differ from exact round half to even when the decimal value is not representable (for example `round(2.675, 2)`).
- The descriptive zone fields the core never reads (conflict type, ethnicities, incident counts, `last_incident_date`, description) are not carried beyond `id` and `name`. `**zone` copies the zone unchanged, and the model keeps the whole `Zone` value.
- `INITIAL_HERDS` and `CONFLICT_ZONES` are parameters rather than written out. The proved properties hold for every table.
- Required document fields are assumed present. Python raises `KeyError` when any of these is absent, and the model cannot express that case:
  - `herd["lat"]` and `herd["lng"]`, read for every herd, nearby or not (backend/server.py:644);
  - `zone["lat"]`, `zone["lng"]`, `zone["radius"]` and `zone["prediction_factors"]` (backend/server.py:640-641, 674);
  - `z["risk_level"]` on the dashboard (backend/server.py:860-861);
  - `c["casualties"]` and `c["cattle_stolen"]` of an incident (backend/server.py:815-816).
  `Assess` raising exactly when a nearby herd lacks `water_days` or `ndvi` therefore holds for documents that carry these fields.
- `Incident` keeps only the date, the location and the two figures. The coordinates, the incident type and the ethnicities of `HISTORICAL_CONFLICTS` (backend/server.py:474-485) are not carried, so `GetHistoricalConflicts` returns the incidents without those fields.
- Idempotence of the assessment holds by construction: every operation is a pure function of its inputs.
