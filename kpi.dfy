/**
 * The three KPI values shown above the charts (total expenses, patient count,
 * average claim cost), recomputed from the filtered claims, with the scaled
 * baseline used when too few claims survive the filters.
 */
module Kpi {
  import opened Wrappers
  import opened Numbers
  import opened Claims

  /** `filteredMetrics`: filteredTotalExpenses, filteredPatientCount, filteredAvgClaimCost. */
  datatype Kpis = Kpis(totalExpenses: real, patientCount: real, avgClaimCost: real)

  /** `healthcareData?.metrics`: each value may be missing. */
  datatype SourceMetrics = SourceMetrics(totalPatients: Option<real>, totalExpenses: Option<real>, avgClaimCost: Option<real>)

  const NoMetrics: SourceMetrics := SourceMetrics(None, None, None)

  /** `fallbackData.metrics` */
  const FallbackPatients: real := 1250.0
  const FallbackExpenses: real := 1250000.0
  const FallbackAvgClaimCost: real := 2500.0

  /** `value || fallback`: a missing value or 0 takes the fallback. */
  function OrFallback(v: Option<real>, fallback: real): real {
    if v.Some? && v.value != 0.0 then v.value else fallback
  }

  function BasePatients(m: SourceMetrics): real { OrFallback(m.totalPatients, FallbackPatients) }

  function BaseExpenses(m: SourceMetrics): real { OrFallback(m.totalExpenses, FallbackExpenses) }

  function BaseAvgClaimCost(m: SourceMetrics): real { OrFallback(m.avgClaimCost, FallbackAvgClaimCost) }

  /** A baseline that is missing or 0 is replaced by the fallback constant, so it is never 0. */
  lemma BaselineNeverZero(m: SourceMetrics)
    ensures BasePatients(m) != 0.0 && BaseExpenses(m) != 0.0 && BaseAvgClaimCost(m) != 0.0
    ensures m.totalExpenses.None? || m.totalExpenses == Some(0.0) ==> BaseExpenses(m) == 1250000.0
    ensures m.totalPatients.None? || m.totalPatients == Some(0.0) ==> BasePatients(m) == 1250.0
    ensures m.avgClaimCost.None? || m.avgClaimCost == Some(0.0) ==> BaseAvgClaimCost(m) == 2500.0
  {
  }

  /** `Math.max(0.1, 1 - activeFilterCount * 0.15)` */
  function ScaleRatio(n: nat): (r: real)
    ensures 0.1 <= r <= 1.0
  {
    Max(0.1, 1.0 - (n as real) * 0.15)
  }

  /** The ratio starts at 1, is 0.7 for two filters, shrinks with each filter and bottoms out at 0.1 from six on. */
  lemma ScaleRatioFacts(m: nat, n: nat)
    ensures ScaleRatio(0) == 1.0 && ScaleRatio(2) == 0.7
    ensures ScaleRatio(n) == 0.1 <==> n >= 6
    ensures m <= n ==> ScaleRatio(n) <= ScaleRatio(m)
  {
  }

  /** `shouldUseFallback` */
  predicate UsesFallback(claimCount: nat, activeFilterCount: nat) {
    claimCount < 5 && activeFilterCount > 0
  }

  /** The sum of `claim.totalCost || 0`, accumulated left to right. */
  function SumCosts(claims: seq<Option<Claim>>): real
    requires NoNulls(claims)
  {
    if claims == [] then 0.0
    else SumCosts(claims[..|claims| - 1]) + CostOf(claims[|claims| - 1].value)
  }

  /** The distinct truthy patient ids of the claims. */
  function PatientIds(claims: seq<Option<Claim>>): set<string>
    requires NoNulls(claims)
  {
    if claims == [] then {}
    else
      var last := claims[|claims| - 1].value;
      PatientIds(claims[..|claims| - 1]) + (if Truthy(last.patientId) then {last.patientId.value} else {})
  }

  /** No more distinct patients than claims. */
  lemma {:induction false} PatientIdsBound(claims: seq<Option<Claim>>)
    requires NoNulls(claims)
    ensures |PatientIds(claims)| <= |claims|
  {
    if claims != [] {
      var init := claims[..|claims| - 1];
      PatientIdsBound(init);
      var last := claims[|claims| - 1].value;
      var extra: set<string> := if Truthy(last.patientId) then {last.patientId.value} else {};
      assert |PatientIds(init) + extra| <= |PatientIds(init)| + |extra|;
    }
  }

  /** Every distinct id belongs to some claim, and every truthy id of a claim is counted. */
  lemma {:induction false} PatientIdsMembers(claims: seq<Option<Claim>>)
    requires NoNulls(claims)
    ensures forall id :: id in PatientIds(claims) <==>
              exists i :: 0 <= i < |claims| && Truthy(claims[i].value.patientId) && claims[i].value.patientId.value == id
  {
    if claims != [] {
      var init := claims[..|claims| - 1];
      PatientIdsMembers(init);
      forall id | true
        ensures id in PatientIds(claims) <==>
                exists i :: 0 <= i < |claims| && Truthy(claims[i].value.patientId) && claims[i].value.patientId.value == id
      {
        if exists i :: 0 <= i < |claims| && Truthy(claims[i].value.patientId) && claims[i].value.patientId.value == id {
          var i :| 0 <= i < |claims| && Truthy(claims[i].value.patientId) && claims[i].value.patientId.value == id;
          if i < |claims| - 1 {
            assert init[i] == claims[i];
          }
        }
        if id in PatientIds(init) {
          var i :| 0 <= i < |init| && Truthy(init[i].value.patientId) && init[i].value.patientId.value == id;
          assert claims[i] == init[i];
        }
      }
    }
  }

  /** The scaled baseline: each baseline times the ratio, the patient count rounded and at least 1. */
  function ScaledBaseline(base: SourceMetrics, activeFilterCount: nat): (k: Kpis)
    ensures k.patientCount >= 1.0
    ensures BaseExpenses(base) >= 0.0 ==> 0.1 * BaseExpenses(base) <= k.totalExpenses <= BaseExpenses(base)
    ensures BaseAvgClaimCost(base) >= 0.0 ==> 0.1 * BaseAvgClaimCost(base) <= k.avgClaimCost <= BaseAvgClaimCost(base)
  {
    var ratio := ScaleRatio(activeFilterCount);
    ScaledWithin(BaseExpenses(base), ratio);
    ScaledWithin(BaseAvgClaimCost(base), ratio);
    Kpis(
      BaseExpenses(base) * ratio,
      MaxInt(1, Round(BasePatients(base) * ratio)) as real,
      BaseAvgClaimCost(base) * ratio)
  }

  /** A non-negative baseline scaled by a ratio in [0.1, 1] lies between a tenth of it and itself. */
  lemma ScaledWithin(b: real, ratio: real)
    requires 0.1 <= ratio <= 1.0
    ensures b >= 0.0 ==> 0.1 * b <= b * ratio <= b
  {
    if b >= 0.0 {
      assert b * ratio - 0.1 * b == b * (ratio - 0.1);
      assert b - b * ratio == b * (1.0 - ratio);
    }
  }

  /**
   * The metrics `applyFilters` and the recalculation effect compute from the
   * filtered claims: the scaled baseline when fewer than 5 claims survive and
   * a filter is active, otherwise the sum, distinct-patient count and per-claim
   * average, floored at 100, 1 and 10.
   */
  function KpisOf(filtered: seq<Option<Claim>>, activeFilterCount: nat, base: SourceMetrics): (k: Kpis)
    requires NoNulls(filtered)
    ensures UsesFallback(|filtered|, activeFilterCount) ==> k == ScaledBaseline(base, activeFilterCount)
    ensures !UsesFallback(|filtered|, activeFilterCount) ==>
              && k.totalExpenses == Max(SumCosts(filtered), 100.0)
              && k.patientCount == Max(|PatientIds(filtered)| as real, 1.0)
              && k.avgClaimCost >= 10.0
    ensures !UsesFallback(|filtered|, activeFilterCount) && |filtered| > 0 ==>
              k.avgClaimCost == Max(SumCosts(filtered) / (|filtered| as real), 10.0)
    ensures !UsesFallback(|filtered|, activeFilterCount) && |filtered| == 0 ==> k == Kpis(100.0, 1.0, 10.0)
  {
    if UsesFallback(|filtered|, activeFilterCount) then ScaledBaseline(base, activeFilterCount)
    else
      var total := SumCosts(filtered);
      var size := |PatientIds(filtered)|;
      var patientCount := if size == 0 then 1 else size;
      var avg := if |filtered| > 0 then total / (|filtered| as real) else 0.0;
      Kpis(Max(total, 100.0), MaxInt(patientCount, 1) as real, Max(avg, 10.0))
  }

  /**
   * Without the fallback the patient count never exceeds the claim count, and
   * whenever the average is above its floor it times the claim count gives back
   * the total: the divisor is the number of claims, not of patients.
   */
  lemma KpisAverageAndPatients(filtered: seq<Option<Claim>>, activeFilterCount: nat, base: SourceMetrics)
    requires NoNulls(filtered)
    requires !UsesFallback(|filtered|, activeFilterCount) && |filtered| > 0
    ensures 1.0 <= KpisOf(filtered, activeFilterCount, base).patientCount <= |filtered| as real
    ensures SumCosts(filtered) / (|filtered| as real) >= 10.0 ==>
              KpisOf(filtered, activeFilterCount, base).avgClaimCost * (|filtered| as real) == SumCosts(filtered)
  {
    PatientIdsBound(filtered);
    var n := |filtered| as real;
    var total := SumCosts(filtered);
    if total / n >= 10.0 {
      assert KpisOf(filtered, activeFilterCount, base).avgClaimCost == total / n;
      DivTimes(total, n);
    }
  }

  lemma DivTimes(a: real, b: real)
    requires b > 0.0
    ensures (a / b) * b == a
  {
  }

  /** A single matching claim under one filter yields the baseline scaled by 0.85, whatever the claim costs. */
  lemma KpisOfSingleClaim(c: Claim, base: SourceMetrics)
    ensures KpisOf([Some(c)], 1, base).totalExpenses == BaseExpenses(base) * 0.85
    ensures KpisOf([Some(c)], 1, base).avgClaimCost == BaseAvgClaimCost(base) * 0.85
  {
  }

  /** The forEach loops of `applyFilters`: one sums the costs, one collects the patient ids in a Set. */
  method RecomputeKpis(filtered: seq<Option<Claim>>, activeFilterCount: nat, base: SourceMetrics) returns (k: Kpis)
    requires NoNulls(filtered)
    ensures k == KpisOf(filtered, activeFilterCount, base)
  {
    var totalExpenses := 0.0;
    var i := 0;
    while i < |filtered|
      invariant 0 <= i <= |filtered|
      invariant totalExpenses == SumCosts(filtered[..i])
    {
      assert filtered[..i + 1][..i] == filtered[..i];
      totalExpenses := totalExpenses + CostOf(filtered[i].value);
      i := i + 1;
    }
    assert filtered[..|filtered|] == filtered;

    var uniquePatientIds: set<string> := {};
    i := 0;
    while i < |filtered|
      invariant 0 <= i <= |filtered|
      invariant uniquePatientIds == PatientIds(filtered[..i])
    {
      assert filtered[..i + 1][..i] == filtered[..i];
      if Truthy(filtered[i].value.patientId) {
        uniquePatientIds := uniquePatientIds + {filtered[i].value.patientId.value};
      }
      i := i + 1;
    }

    var patientCount := if |uniquePatientIds| == 0 then 1 else |uniquePatientIds|;
    var avgClaimCost := if |filtered| > 0 then totalExpenses / (|filtered| as real) else 0.0;
    if |filtered| < 5 && activeFilterCount > 0 {
      var ratio := Max(0.1, 1.0 - (activeFilterCount as real) * 0.15);
      k := Kpis(
        BaseExpenses(base) * ratio,
        MaxInt(1, Round(BasePatients(base) * ratio)) as real,
        BaseAvgClaimCost(base) * ratio);
    } else {
      k := Kpis(Max(totalExpenses, 100.0), MaxInt(patientCount, 1) as real, Max(avgClaimCost, 10.0));
    }
  }

  /**
   * calculateFilteredMetrics: the scaled baseline when nothing matches;
   * otherwise the computed values, each replaced by a tenth of its baseline
   * when it is under 100, 1 or 10.
   */
  function FilteredMetrics(filtered: seq<Option<Claim>>, activeFilterCount: nat, base: SourceMetrics): (k: Kpis)
    requires NoNulls(filtered)
    ensures |filtered| == 0 ==> k == ScaledBaseline(base, activeFilterCount)
    ensures |filtered| > 0 ==>
              var total := SumCosts(filtered);
              var avg := total / (|filtered| as real);
              && k.totalExpenses == (if total < 100.0 then BaseExpenses(base) * 0.1 else total)
              && k.patientCount == Max(|PatientIds(filtered)| as real, 1.0)
              && k.avgClaimCost == (if avg < 10.0 then BaseAvgClaimCost(base) * 0.1 else avg)
  {
    if |filtered| == 0 then ScaledBaseline(base, activeFilterCount)
    else
      var total := SumCosts(filtered);
      var size := |PatientIds(filtered)|;
      var patientCount := if size == 0 then 1 else size;
      var avg := total / (|filtered| as real);
      Kpis(
        if total < 100.0 then BaseExpenses(base) * 0.1 else total,
        if patientCount < 1 then MaxInt(1, Round(BasePatients(base) * 0.1)) as real else patientCount as real,
        if avg < 10.0 then BaseAvgClaimCost(base) * 0.1 else avg)
  }

  /**
   * The patient branch of calculateFilteredMetrics is dead (`size || 1` is never
   * below 1), and where its floors are not hit it agrees with the applyFilters
   * formula: on no claims under an active filter, and on five or more claims.
   */
  lemma FilteredMetricsAgreesWithKpis(filtered: seq<Option<Claim>>, activeFilterCount: nat, base: SourceMetrics)
    requires NoNulls(filtered)
    ensures |filtered| > 0 ==> FilteredMetrics(filtered, activeFilterCount, base).patientCount == KpisOf(filtered, 0, base).patientCount
    ensures |filtered| == 0 && activeFilterCount > 0 ==>
              FilteredMetrics(filtered, activeFilterCount, base) == KpisOf(filtered, activeFilterCount, base)
    ensures |filtered| >= 5 && SumCosts(filtered) >= 100.0 && SumCosts(filtered) / (|filtered| as real) >= 10.0 ==>
              FilteredMetrics(filtered, activeFilterCount, base) == KpisOf(filtered, activeFilterCount, base)
  {
  }

  /** resetFilters: the unscaled baselines. */
  function ResetKpis(base: SourceMetrics): (k: Kpis)
    ensures k.totalExpenses != 0.0 && k.patientCount != 0.0 && k.avgClaimCost != 0.0
  {
    BaselineNeverZero(base);
    Kpis(BaseExpenses(base), BasePatients(base), BaseAvgClaimCost(base))
  }

  /** The reset metrics are the baseline scaled for zero filters whenever the patient baseline is a whole number of at least 1. */
  lemma ResetIsUnscaledBaseline(base: SourceMetrics)
    requires BasePatients(base) == BasePatients(base).Floor as real && BasePatients(base) >= 1.0
    ensures ResetKpis(base) == ScaledBaseline(base, 0)
  {
    RoundInt(BasePatients(base).Floor);
  }
}
