/** The herd list the endpoints work on, and the sums over it that the risk model
    and the dashboard take (backend/server.py). */
module Herds {
  import opened BovineTypes

  /** `db.herds.find(...).to_list(100)` reads at most this many stored documents. */
  const StoreReadLimit: nat := 100

  /** The herds an endpoint works on: the first `StoreReadLimit` stored documents,
      or the built-in `INITIAL_HERDS` table when the store returned none. */
  function EffectiveHerds(stored: seq<Herd>, initial: seq<Herd>): (herds: seq<Herd>)
    ensures stored == [] ==> herds == initial
    ensures stored != [] ==> 0 < |herds| <= StoreReadLimit && herds <= stored
    ensures |stored| <= StoreReadLimit ==> stored != [] ==> herds == stored
    ensures |stored| > StoreReadLimit ==> herds == stored[..StoreReadLimit]
  {
    if stored == [] then initial
    else if |stored| <= StoreReadLimit then stored
    else stored[..StoreReadLimit]
  }

  /** `sum(h["water_days"] for h in herds)`, defined where no document lacks the key. */
  function SumWaterDays(herds: seq<Herd>): int
    requires forall h <- herds :: h.waterDays.Some?
  {
    if herds == [] then 0 else herds[0].waterDays.value + SumWaterDays(herds[1..])
  }

  /** `sum(h["ndvi"] for h in herds)` and also `sum(h.get("ndvi", 0) for h in herds)`:
      an absent reading counts as 0. */
  function SumNdvi(herds: seq<Herd>): real
  {
    if herds == [] then 0.0 else herds[0].ndvi.GetOr(0.0) + SumNdvi(herds[1..])
  }

  /** `sum(h.get("heads", 0) for h in herds)`. */
  function TotalHeads(herds: seq<Herd>): (total: int)
    ensures (forall h <- herds :: h.heads.GetOr(0) >= 0) ==> total >= 0
  {
    if herds == [] then 0 else herds[0].heads.GetOr(0) + TotalHeads(herds[1..])
  }

  /** A herd under water pressure: `h.get("water_days", 10) <= 3`. */
  function UnderWaterPressure(h: Herd): (pressed: bool)
    ensures h.waterDays.None? ==> !pressed
    ensures h.waterDays.Some? ==> (pressed <==> h.waterDays.value <= 3)
  {
    h.waterDays.GetOr(10) <= 3
  }

  /** `len([h for h in herds if h.get("water_days", 10) <= 3])`. */
  function CountHighPressure(herds: seq<Herd>): (n: nat)
    ensures n <= |herds|
  {
    if herds == [] then 0
    else (if UnderWaterPressure(herds[0]) then 1 else 0) + CountHighPressure(herds[1..])
  }

  lemma {:induction false} SumWaterDaysNonNegative(herds: seq<Herd>)
    requires forall h <- herds :: h.waterDays.Some? && h.waterDays.value >= 0
    ensures SumWaterDays(herds) >= 0
  {
    if herds != [] {
      SumWaterDaysNonNegative(herds[1..]);
    }
  }

  lemma {:induction false} SumNdviNonNegative(herds: seq<Herd>)
    requires forall h <- herds :: h.ndvi.GetOr(0.0) >= 0.0
    ensures SumNdvi(herds) >= 0.0
  {
    if herds != [] {
      SumNdviNonNegative(herds[1..]);
    }
  }

  /** The NDVI sum of readings that are all at least `lo` and at most `hi` lies
      between |herds|*lo and |herds|*hi. */
  lemma {:induction false} SumNdviBounds(herds: seq<Herd>, lo: real, hi: real)
    requires forall h <- herds :: lo <= h.ndvi.GetOr(0.0) <= hi
    ensures |herds| as real * lo <= SumNdvi(herds) <= |herds| as real * hi
  {
    if herds != [] {
      SumNdviBounds(herds[1..], lo, hi);
      var k := |herds[1..]| as real;
      AddOneWithin(k, herds[0].ndvi.GetOr(0.0), SumNdvi(herds[1..]), lo, hi);
      assert |herds| as real == k + 1.0;
    }
  }

  /** One more value in [lo, hi] on top of a total of `k` such values. */
  lemma AddOneWithin(k: real, v: real, rest: real, lo: real, hi: real)
    requires k * lo <= rest <= k * hi && lo <= v <= hi
    ensures (k + 1.0) * lo <= v + rest <= (k + 1.0) * hi
  {
    assert (k + 1.0) * lo == k * lo + lo;
    assert (k + 1.0) * hi == k * hi + hi;
  }

  /** The head count of two herd lists together is the sum of their head counts. */
  lemma {:induction false} TotalHeadsAppend(a: seq<Herd>, b: seq<Herd>)
    ensures TotalHeads(a + b) == TotalHeads(a) + TotalHeads(b)
  {
    if a == [] {
      assert a + b == b;
    } else {
      assert (a + b)[1..] == a[1..] + b;
      TotalHeadsAppend(a[1..], b);
    }
  }

  /** A herd document without a `heads` entry adds nothing to the cattle total. */
  lemma TotalHeadsIgnoresMissing(herds: seq<Herd>, h: Herd)
    requires h.heads.None?
    ensures TotalHeads(herds + [h]) == TotalHeads(herds)
  {
    TotalHeadsAppend(herds, [h]);
  }

  lemma {:induction false} CountHighPressureAppend(a: seq<Herd>, b: seq<Herd>)
    ensures CountHighPressure(a + b) == CountHighPressure(a) + CountHighPressure(b)
  {
    if a == [] {
      assert a + b == b;
    } else {
      assert (a + b)[1..] == a[1..] + b;
      CountHighPressureAppend(a[1..], b);
    }
  }

  /** A herd document without `water_days` defaults to 10 days and is never counted
      under water pressure; one with at most 3 days always is. */
  lemma CountHighPressureStep(herds: seq<Herd>, h: Herd)
    ensures h.waterDays.None? ==> CountHighPressure(herds + [h]) == CountHighPressure(herds)
    ensures h.waterDays.Some? && h.waterDays.value <= 3 ==>
              CountHighPressure(herds + [h]) == CountHighPressure(herds) + 1
    ensures h.waterDays.Some? && h.waterDays.value > 3 ==>
              CountHighPressure(herds + [h]) == CountHighPressure(herds)
  {
    CountHighPressureAppend(herds, [h]);
    assert [h][1..] == [];
  }
}
