/** The ranking of `get_conflict_zones` in backend/server.py: every zone is
    assessed, the list is sorted by descending `real_time_risk` with Python's
    stable `list.sort(..., reverse=True)`, and the Critical and High entries are
    counted. */
module Ranking {
  import opened BovineTypes
  import opened ConflictRisk
  import opened Herds

  // ---------------------------------------------------------------- stable sort

  /** Non-increasing reported risk from front to back. */
  predicate SortedByRiskDesc(s: seq<AssessedZone>)
  {
    forall i, j :: 0 <= i < j < |s| ==> s[i].realTimeRisk >= s[j].realTimeRisk
  }

  /** `x` placed after every entry whose risk is at least its own: in front of the
      first entry with a strictly lower risk. */
  function InsertByRisk(x: AssessedZone, s: seq<AssessedZone>): (r: seq<AssessedZone>)
    ensures |r| == |s| + 1
  {
    if s == [] then [x]
    else if s[0].realTimeRisk >= x.realTimeRisk then [s[0]] + InsertByRisk(x, s[1..])
    else [x] + s
  }

  /** The result of Python's stable `sort(key=real_time_risk, reverse=True)`:
      each entry in turn inserted behind the equal-risk entries before it. */
  function SortByRiskDesc(s: seq<AssessedZone>): (r: seq<AssessedZone>)
    ensures |r| == |s|
  {
    if s == [] then []
    else InsertByRisk(s[|s| - 1], SortByRiskDesc(s[..|s| - 1]))
  }

  /** Inserting adds exactly `x`: no entry is lost or duplicated. */
  lemma {:induction false} InsertIsPermutation(x: AssessedZone, s: seq<AssessedZone>)
    ensures multiset(InsertByRisk(x, s)) == multiset(s) + multiset{x}
  {
    if s != [] && s[0].realTimeRisk >= x.realTimeRisk {
      InsertIsPermutation(x, s[1..]);
      assert s == [s[0]] + s[1..];
    }
  }

  /** The sorted list is a permutation of its input. */
  lemma {:induction false} SortIsPermutation(s: seq<AssessedZone>)
    ensures multiset(SortByRiskDesc(s)) == multiset(s)
  {
    if s != [] {
      SortIsPermutation(s[..|s| - 1]);
      InsertIsPermutation(s[|s| - 1], SortByRiskDesc(s[..|s| - 1]));
      assert s == s[..|s| - 1] + [s[|s| - 1]];
    }
  }

  /** The entries whose reported risk is `k`, in order. */
  function WithRisk(s: seq<AssessedZone>, k: real): seq<AssessedZone>
  {
    if s == [] then []
    else (if s[0].realTimeRisk == k then [s[0]] else []) + WithRisk(s[1..], k)
  }

  lemma {:induction false} WithRiskAppend(a: seq<AssessedZone>, b: seq<AssessedZone>, k: real)
    ensures WithRisk(a + b, k) == WithRisk(a, k) + WithRisk(b, k)
  {
    if a == [] {
      assert a + b == b;
    } else {
      var head := if a[0].realTimeRisk == k then [a[0]] else [];
      assert (a + b)[0] == a[0];
      assert (a + b)[1..] == a[1..] + b;
      assert WithRisk(a + b, k) == head + WithRisk(a[1..] + b, k);
      WithRiskAppend(a[1..], b, k);
      assert WithRisk(a, k) == head + WithRisk(a[1..], k);
    }
  }

  lemma {:induction false} WithRiskOfLower(s: seq<AssessedZone>, k: real)
    requires forall i :: 0 <= i < |s| ==> s[i].realTimeRisk < k
    ensures WithRisk(s, k) == []
  {
    if s != [] {
      WithRiskOfLower(s[1..], k);
    }
  }

  lemma {:induction false} InsertKeepsSorted(x: AssessedZone, s: seq<AssessedZone>)
    requires SortedByRiskDesc(s)
    ensures SortedByRiskDesc(InsertByRisk(x, s))
  {
    if s != [] && s[0].realTimeRisk >= x.realTimeRisk {
      var tail := InsertByRisk(x, s[1..]);
      InsertKeepsSorted(x, s[1..]);
      InsertIsPermutation(x, s[1..]);
      forall j | 0 <= j < |tail|
        ensures s[0].realTimeRisk >= tail[j].realTimeRisk
      {
        assert tail[j] in multiset(tail);
        assert tail[j] == x || tail[j] in multiset(s[1..]);
        if tail[j] != x {
          var m :| 0 <= m < |s[1..]| && s[1..][m] == tail[j];
          assert s[m + 1] == tail[j];
        }
      }
    }
  }

  /** Inserting into a sorted list puts `x` behind every entry of equal risk: the
      equal-risk entries keep their order and `x` comes last among them. */
  lemma {:induction false} InsertIsStable(x: AssessedZone, s: seq<AssessedZone>, k: real)
    requires SortedByRiskDesc(s)
    ensures WithRisk(InsertByRisk(x, s), k) == WithRisk(s, k) + WithRisk([x], k)
  {
    if s == [] {
      assert [x] == s + [x];
    } else if s[0].realTimeRisk >= x.realTimeRisk {
      var tail := InsertByRisk(x, s[1..]);
      assert SortedByRiskDesc(s[1..]);
      InsertIsStable(x, s[1..], k);
      assert InsertByRisk(x, s) == [s[0]] + tail;
      WithRiskAppend([s[0]], tail, k);
      assert s == [s[0]] + s[1..];
      WithRiskAppend([s[0]], s[1..], k);
    } else {
      assert InsertByRisk(x, s) == [x] + s;
      WithRiskAppend([x], s, k);
      if x.realTimeRisk == k {
        WithRiskOfLower(s, k);
      } else {
        assert [x][1..] == [];
        assert WithRisk([x], k) == [];
      }
    }
  }

  lemma {:induction false} SortIsSorted(s: seq<AssessedZone>)
    ensures SortedByRiskDesc(SortByRiskDesc(s))
  {
    if s != [] {
      SortIsSorted(s[..|s| - 1]);
      InsertKeepsSorted(s[|s| - 1], SortByRiskDesc(s[..|s| - 1]));
    }
  }

  /** The sort is stable: for every risk value, the entries with that risk appear
      in the same order as in the input. */
  lemma {:induction false} SortIsStable(s: seq<AssessedZone>, k: real)
    ensures WithRisk(SortByRiskDesc(s), k) == WithRisk(s, k)
  {
    if s != [] {
      var init := s[..|s| - 1];
      SortIsStable(init, k);
      SortIsSorted(init);
      InsertIsStable(s[|s| - 1], SortByRiskDesc(init), k);
      assert s == init + [s[|s| - 1]];
      WithRiskAppend(init, [s[|s| - 1]], k);
    }
  }

  /** The array sort the endpoint performs in place: insertion sort, each entry
      in turn moved in front of the entries of strictly lower risk. */
  method SortInPlace(a: array<AssessedZone>)
    modifies a
    ensures a[..] == SortByRiskDesc(old(a[..]))
  {
    ghost var input := a[..];
    var i := 0;
    while i < a.Length
      invariant 0 <= i <= a.Length
      invariant a[..i] == SortByRiskDesc(input[..i])
      invariant a[i..] == input[i..]
    {
      SortIsSorted(input[..i]);
      InsertInPlace(a, i);
      SortPrefixStep(input, i);
      i := i + 1;
    }
    assert input[..a.Length] == input;
  }

  /** Sorting one more entry of the input inserts that entry into the sorted prefix. */
  lemma SortPrefixStep(s: seq<AssessedZone>, i: nat)
    requires i < |s|
    ensures SortByRiskDesc(s[..i + 1]) == InsertByRisk(s[i], SortByRiskDesc(s[..i]))
  {
    assert s[..i + 1][..i] == s[..i];
  }

  /** One step of the insertion sort: `a[i]` moves into the sorted prefix `a[..i]`,
      the entries of strictly lower risk shifting one place right. */
  method InsertInPlace(a: array<AssessedZone>, i: nat)
    requires i < a.Length && SortedByRiskDesc(a[..i])
    modifies a
    ensures a[..i + 1] == InsertByRisk(old(a[i]), old(a[..i]))
    ensures a[i + 1..] == old(a[i + 1..])
  {
    var x := a[i];
    ghost var sorted := a[..i];
    var j := OpenGap(a, i);
    a[j] := x;
    assert a[i + 1..] == old(a[i + 1..]) by {
      assert forall m :: i < m < a.Length ==> a[m] == old(a[m]);
    }
    assert InsertByRisk(x, sorted) == sorted[..j] + [x] + sorted[j..] by {
      InsertAt(x, sorted, j);
    }
    assert a[..i + 1] == sorted[..j] + [x] + sorted[j..] by {
      ShiftedIsInserted(a[..i + 1], sorted, x, j);
    }
  }

  /** The shifting loop: moves the entries before `i` whose risk is strictly lower
      than `a[i]`'s one place right, and returns the index left free for `a[i]`. */
  method OpenGap(a: array<AssessedZone>, i: nat) returns (j: nat)
    requires i < a.Length
    modifies a
    ensures j <= i
    ensures forall m :: 0 <= m < j ==> a[m] == old(a[m])
    ensures forall m :: j < m <= i ==> a[m] == old(a[m - 1])
    ensures forall m :: i < m < a.Length ==> a[m] == old(a[m])
    ensures forall m :: j <= m < i ==> old(a[m]).realTimeRisk < old(a[i]).realTimeRisk
    ensures j > 0 ==> old(a[j - 1]).realTimeRisk >= old(a[i]).realTimeRisk
  {
    var x := a[i];
    j := i;
    while j > 0 && a[j - 1].realTimeRisk < x.realTimeRisk
      invariant 0 <= j <= i
      invariant forall m :: 0 <= m < j ==> a[m] == old(a[m])
      invariant forall m :: j < m <= i ==> a[m] == old(a[m - 1])
      invariant forall m :: i < m < a.Length ==> a[m] == old(a[m])
      invariant forall m :: j <= m < i ==> old(a[m]).realTimeRisk < x.realTimeRisk
    {
      a[j] := a[j - 1];
      j := j - 1;
    }
  }

  /** The array prefix after the shifts and the final write is the sorted prefix
      with `x` placed at `j`. */
  lemma ShiftedIsInserted(cur: seq<AssessedZone>, sorted: seq<AssessedZone>, x: AssessedZone, j: nat)
    requires j <= |sorted| && |cur| == |sorted| + 1
    requires forall m :: 0 <= m < j ==> cur[m] == sorted[m]
    requires cur[j] == x
    requires forall m :: j < m < |cur| ==> cur[m] == sorted[m - 1]
    ensures cur == sorted[..j] + [x] + sorted[j..]
  {
    var inserted := sorted[..j] + [x] + sorted[j..];
    forall m | 0 <= m < |cur|
      ensures cur[m] == inserted[m]
    {
      if m < j {
        assert inserted[m] == sorted[m];
      } else if m > j {
        assert inserted[m] == sorted[m - 1];
      }
    }
  }

  /** Where the insertion loop stops is where `InsertByRisk` puts the entry. */
  lemma {:induction false} InsertAt(x: AssessedZone, s: seq<AssessedZone>, j: nat)
    requires SortedByRiskDesc(s)
    requires j <= |s|
    requires forall m :: j <= m < |s| ==> s[m].realTimeRisk < x.realTimeRisk
    requires j > 0 ==> s[j - 1].realTimeRisk >= x.realTimeRisk
    ensures InsertByRisk(x, s) == s[..j] + [x] + s[j..]
  {
    if j > 0 {
      assert s[0].realTimeRisk >= x.realTimeRisk;
      InsertAt(x, s[1..], j - 1);
      assert s[..j] == [s[0]] + s[1..][..j - 1];
      assert s[j..] == s[1..][j - 1..];
    } else {
      assert s[..0] == [] && s[0..] == s;
    }
  }

  // ---------------------------------------------------------------- counts

  /** `len([z for z in zones if z["real_time_level"] == level])`. */
  function CountLevel(s: seq<AssessedZone>, level: Level): (n: nat)
    ensures n <= |s|
  {
    if s == [] then 0
    else (if s[0].realTimeLevel == level then 1 else 0) + CountLevel(s[1..], level)
  }

  lemma {:induction false} CountLevelAppend(a: seq<AssessedZone>, b: seq<AssessedZone>, level: Level)
    ensures CountLevel(a + b, level) == CountLevel(a, level) + CountLevel(b, level)
  {
    if a == [] {
      assert a + b == b;
    } else {
      assert (a + b)[1..] == a[1..] + b;
      CountLevelAppend(a[1..], b, level);
    }
  }

  lemma {:induction false} CountLevelOfInsert(x: AssessedZone, s: seq<AssessedZone>, level: Level)
    ensures CountLevel(InsertByRisk(x, s), level) == CountLevel(s + [x], level)
  {
    CountLevelAppend(s, [x], level);
    assert [x][1..] == [];
    if s != [] {
      if s[0].realTimeRisk >= x.realTimeRisk {
        CountLevelOfInsert(x, s[1..], level);
        CountLevelAppend(s[1..], [x], level);
        assert ([s[0]] + InsertByRisk(x, s[1..]))[1..] == InsertByRisk(x, s[1..]);
      } else {
        assert ([x] + s)[1..] == s;
      }
    }
  }

  /** Sorting does not change how many entries carry a level. */
  lemma {:induction false} CountLevelOfSort(s: seq<AssessedZone>, level: Level)
    ensures CountLevel(SortByRiskDesc(s), level) == CountLevel(s, level)
  {
    if s != [] {
      var init, last := s[..|s| - 1], s[|s| - 1];
      assert s == init + [last];
      CountLevelAppend(init, [last], level);
      CountLevelOfSort(init, level);
      CountLevelOfInsert(last, SortByRiskDesc(init), level);
      CountLevelAppend(SortByRiskDesc(init), [last], level);
    }
  }

  /** No entry carries two levels: the Critical and High counts together are at
      most the number of entries. */
  lemma {:induction false} CriticalAndHighAtMostAll(s: seq<AssessedZone>)
    ensures CountLevel(s, Critical) + CountLevel(s, High) <= |s|
  {
    if s != [] {
      CriticalAndHighAtMostAll(s[1..]);
    }
  }

  // ---------------------------------------------------------------- endpoint

  /** The per-zone assessment of the endpoint, against fixed herds and weather. */
  function Assessor(herds: seq<Herd>, weather: Weather): Zone -> Result<AssessedZone>
  {
    zone => Assess(herds, weather, zone)
  }

  /** `assess` applied to the zones in order: the list of results, or the KeyError
      of the first zone whose assessment raised one. */
  function AssessEach(assess: Zone -> Result<AssessedZone>, zones: seq<Zone>): (r: Result<seq<AssessedZone>>)
    ensures r.Ok? ==> |r.value| == |zones|
  {
    if zones == [] then Ok([])
    else
      match assess(zones[0])
      case KeyError(k) => KeyError(k)
      case Ok(a) =>
        match AssessEach(assess, zones[1..])
        case KeyError(k) => KeyError(k)
        case Ok(rest) => Ok([a] + rest)
  }

  /** When every zone is assessed, the list holds the assessments in zone order. */
  lemma {:induction false} AssessEachOfAllOk(assess: Zone -> Result<AssessedZone>, zones: seq<Zone>, assessed: seq<AssessedZone>)
    requires |assessed| == |zones|
    requires forall j :: 0 <= j < |zones| ==> assess(zones[j]) == Ok(assessed[j])
    ensures AssessEach(assess, zones) == Ok(assessed)
  {
    if zones != [] {
      assert forall j :: 0 <= j < |zones| - 1 ==> zones[1..][j] == zones[j + 1] && assessed[1..][j] == assessed[j + 1];
      AssessEachOfAllOk(assess, zones[1..], assessed[1..]);
      assert assessed == [assessed[0]] + assessed[1..];
    }
  }

  /** When the zones before `i` are assessed and zone `i` raises, the list raises
      zone `i`'s KeyError. */
  lemma {:induction false} AssessEachOfFirstError(assess: Zone -> Result<AssessedZone>, zones: seq<Zone>, i: nat)
    requires i < |zones| && assess(zones[i]).KeyError?
    requires forall j :: 0 <= j < i ==> assess(zones[j]).Ok?
    ensures AssessEach(assess, zones) == KeyError(assess(zones[i]).key)
  {
    if i > 0 {
      assert forall j :: 0 <= j < |zones| - 1 ==> zones[1..][j] == zones[j + 1];
      AssessEachOfFirstError(assess, zones[1..], i - 1);
    }
  }

  /** A successful list holds each zone's assessment at the zone's position. */
  lemma {:induction false} AssessEachPositions(assess: Zone -> Result<AssessedZone>, zones: seq<Zone>)
    requires AssessEach(assess, zones).Ok?
    ensures forall i :: 0 <= i < |zones| ==> assess(zones[i]) == Ok(AssessEach(assess, zones).value[i])
  {
    if zones != [] {
      var all := AssessEach(assess, zones).value;
      AssessEachPositions(assess, zones[1..]);
      assert all == [all[0]] + AssessEach(assess, zones[1..]).value;
      forall i | 1 <= i < |zones|
        ensures assess(zones[i]) == Ok(all[i])
      {
        assert zones[1..][i - 1] == zones[i];
      }
    }
  }

  /** Zone `i` is the first whose assessment raises, and it raises `k`. */
  predicate FirstRaisingZone(assess: Zone -> Result<AssessedZone>, zones: seq<Zone>, i: int, k: string)
  {
    && 0 <= i < |zones|
    && assess(zones[i]) == KeyError(k)
    && forall j :: 0 <= j < i ==> assess(zones[j]).Ok?
  }

  /** When the list raises, it raises the KeyError of the first zone that raises. */
  lemma {:induction false} AssessEachFirstError(assess: Zone -> Result<AssessedZone>, zones: seq<Zone>)
    requires AssessEach(assess, zones).KeyError?
    ensures exists i :: FirstRaisingZone(assess, zones, i, AssessEach(assess, zones).key)
  {
    var k := AssessEach(assess, zones).key;
    if assess(zones[0]).Ok? {
      AssessEachFirstError(assess, zones[1..]);
      var i :| FirstRaisingZone(assess, zones[1..], i, k);
      assert forall j :: 0 <= j < |zones| - 1 ==> zones[1..][j] == zones[j + 1];
      assert FirstRaisingZone(assess, zones, i + 1, k);
    } else {
      assert FirstRaisingZone(assess, zones, 0, k);
    }
  }

  /** The list succeeds exactly when every zone's assessment does. */
  lemma {:induction false} AssessEachSucceeds(assess: Zone -> Result<AssessedZone>, zones: seq<Zone>)
    ensures AssessEach(assess, zones).Ok? <==> forall i :: 0 <= i < |zones| ==> assess(zones[i]).Ok?
  {
    if AssessEach(assess, zones).Ok? {
      AssessEachPositions(assess, zones);
    } else {
      AssessEachFirstError(assess, zones);
    }
  }

  /** The response of `GET /api/conflict-zones`, without its timestamp. */
  datatype ZonesReport = ZonesReport(zones: seq<AssessedZone>, count: nat, criticalCount: nat, highCount: nat)

  /** The report built from the assessed zones: the list stably sorted by
      descending risk, its length and its Critical and High counts. */
  function RankedReport(assessed: seq<AssessedZone>): (report: ZonesReport)
    ensures report.count == |report.zones| == |assessed|
  {
    var ranked := SortByRiskDesc(assessed);
    ZonesReport(ranked, |ranked|, CountLevel(ranked, Critical), CountLevel(ranked, High))
  }

  /** What the ranked report promises: a permutation of the assessments in
      non-increasing risk, equal risks in their original order, and counts that
      are the numbers of Critical and High assessments. */
  lemma RankedReportCorrect(assessed: seq<AssessedZone>)
    ensures var report := RankedReport(assessed);
            && multiset(report.zones) == multiset(assessed)
            && SortedByRiskDesc(report.zones)
            && (forall k :: WithRisk(report.zones, k) == WithRisk(assessed, k))
            && report.criticalCount == CountLevel(assessed, Critical)
            && report.highCount == CountLevel(assessed, High)
            && report.criticalCount + report.highCount <= report.count
  {
    var ranked := SortByRiskDesc(assessed);
    SortIsSorted(assessed);
    forall k | true
      ensures WithRisk(ranked, k) == WithRisk(assessed, k)
    {
      SortIsStable(assessed, k);
    }
    CountLevelOfSort(assessed, Critical);
    CountLevelOfSort(assessed, High);
    CriticalAndHighAtMostAll(ranked);
    SortIsPermutation(assessed);
  }

  /** The ranked report lists exactly the zones' assessments: every zone's
      assessment is an entry, and every entry is the assessment of some zone. */
  lemma RankedReportEntries(assess: Zone -> Result<AssessedZone>, zones: seq<Zone>)
    requires AssessEach(assess, zones).Ok?
    ensures var report := RankedReport(AssessEach(assess, zones).value);
            && (forall i :: 0 <= i < |zones| ==> assess(zones[i]).Ok? && assess(zones[i]).value in report.zones)
            && (forall e :: e in report.zones ==> exists i :: 0 <= i < |zones| && assess(zones[i]) == Ok(e))
  {
    var assessed := AssessEach(assess, zones).value;
    var ranked := SortByRiskDesc(assessed);
    AssessEachPositions(assess, zones);
    SortIsPermutation(assessed);
    forall i | 0 <= i < |zones|
      ensures assess(zones[i]).Ok? && assess(zones[i]).value in ranked
    {
      assert assessed[i] in multiset(ranked);
    }
    forall e | e in ranked
      ensures exists i :: 0 <= i < |zones| && assess(zones[i]) == Ok(e)
    {
      assert e in multiset(assessed);
      var i :| 0 <= i < |assessed| && assessed[i] == e;
      assert assess(zones[i]) == Ok(e);
    }
  }

  /** The response of `get_conflict_zones`: the herds the store yields (or
      `INITIAL_HERDS`), every zone assessed against them, and the ranked report,
      or the first KeyError. */
  function ConflictZonesReport(stored: seq<Herd>, initial: seq<Herd>, weather: Weather, zones: seq<Zone>): (r: Result<ZonesReport>)
    ensures r.Ok? ==> r.value.count == |r.value.zones| == |zones|
  {
    match AssessEach(Assessor(EffectiveHerds(stored, initial), weather), zones)
    case KeyError(k) => KeyError(k)
    case Ok(assessed) => Ok(RankedReport(assessed))
  }

  /** A successful response lists exactly the zones' assessments against the
      effective herds: every zone's is an entry, and every entry is some zone's. */
  lemma ConflictZonesReportEntries(stored: seq<Herd>, initial: seq<Herd>, weather: Weather, zones: seq<Zone>)
    requires ConflictZonesReport(stored, initial, weather, zones).Ok?
    ensures var herds := EffectiveHerds(stored, initial);
            var report := ConflictZonesReport(stored, initial, weather, zones).value;
            && (forall i :: 0 <= i < |zones| ==> Assess(herds, weather, zones[i]).Ok? && Assess(herds, weather, zones[i]).value in report.zones)
            && (forall e :: e in report.zones ==> exists i :: 0 <= i < |zones| && Assess(herds, weather, zones[i]) == Ok(e))
  {
    RankedReportEntries(Assessor(EffectiveHerds(stored, initial), weather), zones);
  }

  /** The endpoint fails exactly when some zone's assessment raises, and then with
      the KeyError of the first zone that raises. */
  lemma ConflictZonesReportRaises(stored: seq<Herd>, initial: seq<Herd>, weather: Weather, zones: seq<Zone>)
    ensures var herds := EffectiveHerds(stored, initial);
            ConflictZonesReport(stored, initial, weather, zones).KeyError? <==>
              exists i :: 0 <= i < |zones| && Assess(herds, weather, zones[i]).KeyError?
    ensures var r := ConflictZonesReport(stored, initial, weather, zones);
            r.KeyError? ==> exists i :: FirstRaisingZone(Assessor(EffectiveHerds(stored, initial), weather), zones, i, r.key)
  {
    var assess := Assessor(EffectiveHerds(stored, initial), weather);
    AssessEachSucceeds(assess, zones);
    if AssessEach(assess, zones).KeyError? {
      AssessEachFirstError(assess, zones);
    }
  }

  /** `get_conflict_zones`: assesses the zones one by one into a list, sorts the
      list in place and counts the levels. */
  method GetConflictZones(stored: seq<Herd>, initial: seq<Herd>, weather: Weather, zones: seq<Zone>)
    returns (r: Result<ZonesReport>)
    ensures r == ConflictZonesReport(stored, initial, weather, zones)
  {
    var herds := EffectiveHerds(stored, initial);
    var assessed := AssessZones(herds, weather, zones);
    if assessed.KeyError? {
      return KeyError(assessed.key);
    }
    var ranked := Rank(assessed.value);
    r := Ok(ZonesReport(ranked, |ranked|, CountLevel(ranked, Critical), CountLevel(ranked, High)));
  }

  /** The endpoint's loop: `calculate_conflict_risk` on each zone in turn, appending
      the result; the first KeyError ends the request. */
  method AssessZones(herds: seq<Herd>, weather: Weather, zones: seq<Zone>) returns (r: Result<seq<AssessedZone>>)
    ensures r == AssessEach(Assessor(herds, weather), zones)
  {
    ghost var assess := Assessor(herds, weather);
    var assessed: seq<AssessedZone> := [];
    var i := 0;
    while i < |zones|
      invariant 0 <= i <= |zones| && |assessed| == i
      invariant forall j :: 0 <= j < i ==> assess(zones[j]) == Ok(assessed[j])
    {
      var z := CalculateConflictRisk(herds, weather, zones[i]);
      assert z == assess(zones[i]);
      if z.KeyError? {
        AssessEachOfFirstError(assess, zones, i);
        return KeyError(z.key);
      }
      assessed := assessed + [z.value];
      i := i + 1;
    }
    AssessEachOfAllOk(assess, zones, assessed);
    r := Ok(assessed);
  }

  /** The endpoint's `zones.sort(...)`: the list copied into an array and sorted there. */
  method Rank(assessed: seq<AssessedZone>) returns (ranked: seq<AssessedZone>)
    ensures ranked == SortByRiskDesc(assessed)
  {
    var a := new AssessedZone[|assessed|](k requires 0 <= k < |assessed| => assessed[k]);
    assert a[..] == assessed;
    SortInPlace(a);
    ranked := a[..];
  }
}
