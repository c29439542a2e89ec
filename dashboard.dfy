/**
 * The dashboard's filter state: the filters being edited (`tempFilters`), the
 * filters in force (`selectedFilters`), the KPI values they produce, and the
 * data loaded from the API or taken from the fallback set.
 */
module Dashboard {
  import opened Wrappers
  import opened Sequences
  import opened Claims
  import opened ClaimFilter
  import opened Kpi

  // ----- loaded data -----

  /** `response.data.dashboardData`: only its claims matter here. */
  datatype ApiDashboardData = ApiDashboardData(claims: Option<seq<Option<Claim>>>)

  /** `response.data`: missing metrics read as `{}`. */
  datatype ApiResponse = ApiResponse(metrics: SourceMetrics, dashboardData: Option<ApiDashboardData>)

  /** `healthcareData` once loaded. */
  datatype HealthcareData = HealthcareData(metrics: SourceMetrics, claims: Option<seq<Option<Claim>>>)

  const FallbackMetrics: SourceMetrics := SourceMetrics(Some(FallbackPatients), Some(FallbackExpenses), Some(FallbackAvgClaimCost))

  /** `fallbackData`, whose claims are the generated sample claims. */
  function FallbackData(sampleClaims: seq<Option<Claim>>): HealthcareData {
    HealthcareData(FallbackMetrics, Some(sampleClaims))
  }

  /** The check the fetch applies to the API's metrics; a missing value passes it. */
  predicate MetricsLookInvalid(m: SourceMetrics) {
    || m.totalExpenses == Some(0.0)
    || m.avgClaimCost == Some(0.0)
    || (m.totalPatients.Some? && m.totalPatients.value <= 5.0)
  }

  /**
   * What the fetch stores in `healthcareData`. `None` is a failed request. A
   * response without dashboardData throws when its claims are read and also
   * ends in the fallback.
   */
  function ChooseData(response: Option<ApiResponse>, sampleClaims: seq<Option<Claim>>): (d: HealthcareData)
    ensures response.None? ==> d == FallbackData(sampleClaims)
    ensures response.Some? && MetricsLookInvalid(response.value.metrics) ==> d == FallbackData(sampleClaims)
    ensures d != FallbackData(sampleClaims) ==>
              && response.Some? && d.metrics == response.value.metrics
              && !MetricsLookInvalid(d.metrics) && response.value.dashboardData.Some?
    ensures d.claims.Some? && (d.claims.value == sampleClaims || |d.claims.value| > 100)
    ensures response.Some? && response.value.dashboardData.None? ==> d == FallbackData(sampleClaims)
    ensures response.Some? && !MetricsLookInvalid(response.value.metrics) && response.value.dashboardData.Some? ==>
              var apiClaims := response.value.dashboardData.value.claims;
              && d.metrics == response.value.metrics
              && (apiClaims.Some? && |apiClaims.value| > 100 ==> d.claims == Some(apiClaims.value))
              && (apiClaims.None? || |apiClaims.value| <= 100 ==> d.claims == Some(sampleClaims))
  {
    if response.None? || MetricsLookInvalid(response.value.metrics) || response.value.dashboardData.None? then
      FallbackData(sampleClaims)
    else
      var apiClaims := response.value.dashboardData.value.claims;
      HealthcareData(
        response.value.metrics,
        Some(if apiClaims.Some? && |apiClaims.value| > 100 then apiClaims.value else sampleClaims))
  }

  /** A response carrying no metrics at all is accepted: the missing values pass every check. */
  lemma MissingMetricsAccepted(claims: seq<Option<Claim>>, sampleClaims: seq<Option<Claim>>)
    requires |claims| > 100
    ensures ChooseData(Some(ApiResponse(NoMetrics, Some(ApiDashboardData(Some(claims))))), sampleClaims)
            == HealthcareData(NoMetrics, Some(claims))
    ensures BaseExpenses(NoMetrics) == FallbackExpenses && BasePatients(NoMetrics) == FallbackPatients
  {
  }

  /** The claims the filters run on: the loaded ones when there are any, otherwise the sample. */
  function WorkingClaims(data: Option<HealthcareData>, sampleClaims: seq<Option<Claim>>): (r: seq<Option<Claim>>)
    ensures r == sampleClaims || (data.Some? && data.value.claims == Some(r) && |r| > 0)
    ensures data.Some? && data.value.claims.Some? && |data.value.claims.value| > 0 ==> r == data.value.claims.value
    ensures data.None? || data.value.claims.None? || data.value.claims.value == [] ==> r == sampleClaims
  {
    if data.Some? && data.value.claims.Some? && |data.value.claims.value| > 0 then data.value.claims.value
    else sampleClaims
  }

  /** After a fetch the dashboard filters either the sample claims or more than 100 API claims. */
  lemma LoadedClaimsAreSampleOrMany(response: Option<ApiResponse>, sampleClaims: seq<Option<Claim>>)
    ensures var w := WorkingClaims(Some(ChooseData(response, sampleClaims)), sampleClaims);
            w == sampleClaims || |w| > 100
  {
  }

  /** `healthcareData?.metrics`, read before anything is loaded as no metrics. */
  function MetricsOf(data: Option<HealthcareData>): SourceMetrics {
    if data.Some? then data.value.metrics else NoMetrics
  }

  // ----- filter edits -----

  /** `{ ...f, [d]: value }` */
  function WithFilter(f: Filters, d: Dimension, value: string): (r: Filters)
    ensures Get(r, d) == value
    ensures forall e :: e != d ==> Get(r, e) == Get(f, e)
  {
    match d
    case AgeGroup => f.(ageGroup := value)
    case Gender => f.(gender := value)
    case Race => f.(race := value)
    case Condition => f.(condition := value)
    case Location => f.(location := value)
    case DateRange => f.(dateRange := value)
    case CostRange => f.(costRange := value)
  }

  /** Every key "all" except those in ds, which keep their value in f. */
  function Restrict(f: Filters, ds: seq<Dimension>): (r: Filters)
    ensures forall d :: Get(r, d) == if d in ds then Get(f, d) else All
  {
    Filters(
      if AgeGroup in ds then f.ageGroup else All,
      if Gender in ds then f.gender else All,
      if Race in ds then f.race else All,
      if Condition in ds then f.condition else All,
      if Location in ds then f.location else All,
      if DateRange in ds then f.dateRange else All,
      if CostRange in ds then f.costRange else All)
  }

  /** The "Simplify Filters" rule: keep the first two active filters in key order, reset the rest. */
  function Simplified(f: Filters): Filters {
    Restrict(f, Take(ActiveDims(f), 2))
  }

  predicate Distinct(ks: seq<Dimension>) {
    forall i, j :: 0 <= i < j < |ks| ==> ks[i] != ks[j]
  }

  lemma KeysDistinct()
    ensures Distinct(Keys)
  {
  }

  /** The tail of a duplicate-free sequence is duplicate-free and does not hold the head. */
  lemma DistinctTail(ks: seq<Dimension>)
    requires Distinct(ks) && ks != []
    ensures Distinct(ks[1..]) && ks[0] !in ks[1..]
  {
    var rest := ks[1..];
    forall i, j | 0 <= i < j < |rest| ensures rest[i] != rest[j] {
      assert rest[i] == ks[i + 1] && rest[j] == ks[j + 1];
    }
    forall j | 0 <= j < |rest| ensures rest[j] != ks[0] {
      assert rest[j] == ks[j + 1];
    }
  }

  /** If g is active on ks exactly at the elements of a prefix p of f's active keys, g's active keys are p. */
  lemma {:induction false} ActiveInOfPrefix(ks: seq<Dimension>, f: Filters, g: Filters, p: seq<Dimension>)
    requires Distinct(ks)
    requires |p| <= |ActiveIn(ks, f)| && p == ActiveIn(ks, f)[..|p|]
    requires forall d :: d in ks ==> (IsActive(g, d) <==> d in p)
    ensures ActiveIn(ks, g) == p
    decreases |ks|, 1
  {
    if ks == [] {
    } else if p == [] {
      NoneActiveIn(ks, g);
    } else {
      DistinctTail(ks);
      ActiveInCons(ks[0], ks[1..], f);
      ActiveInCons(ks[0], ks[1..], g);
      assert [ks[0]] + ks[1..] == ks;
      if IsActive(f, ks[0]) {
        PrefixWithActiveHead(ks, f, g, p);
      } else {
        PrefixWithInactiveHead(ks, f, g, p);
      }
    }
  }

  lemma {:induction false} PrefixWithActiveHead(ks: seq<Dimension>, f: Filters, g: Filters, p: seq<Dimension>)
    requires Distinct(ks) && ks != [] && p != [] && IsActive(f, ks[0])
    requires Distinct(ks[1..]) && ks[0] !in ks[1..]
    requires ActiveIn(ks, f) == [ks[0]] + ActiveIn(ks[1..], f)
    requires ActiveIn(ks, g) == ActiveSingle(g, ks[0]) + ActiveIn(ks[1..], g)
    requires |p| <= |ActiveIn(ks, f)| && p == ActiveIn(ks, f)[..|p|]
    requires forall d :: d in ks ==> (IsActive(g, d) <==> d in p)
    ensures ActiveIn(ks, g) == p
    decreases |ks|, 0
  {
    var rest := ks[1..];
    var q := p[1..];
    assert p[0] == ks[0];
    assert p == [ks[0]] + q;
    assert q == ActiveIn(rest, f)[..|q|];
    assert ks[0] in p;
    forall d | d in rest ensures IsActive(g, d) <==> d in q {
      assert d in ks && d != ks[0];
    }
    ActiveInOfPrefix(rest, f, g, q);
  }

  lemma {:induction false} PrefixWithInactiveHead(ks: seq<Dimension>, f: Filters, g: Filters, p: seq<Dimension>)
    requires Distinct(ks) && ks != [] && !IsActive(f, ks[0])
    requires Distinct(ks[1..])
    requires ActiveIn(ks, f) == ActiveIn(ks[1..], f)
    requires ActiveIn(ks, g) == ActiveSingle(g, ks[0]) + ActiveIn(ks[1..], g)
    requires |p| <= |ActiveIn(ks, f)| && p == ActiveIn(ks, f)[..|p|]
    requires forall d :: d in ks ==> (IsActive(g, d) <==> d in p)
    ensures ActiveIn(ks, g) == p
    decreases |ks|, 0
  {
    var rest := ks[1..];
    forall j | 0 <= j < |p| ensures IsActive(f, p[j]) {
      assert p[j] == ActiveIn(ks, f)[j];
      assert p[j] in ActiveIn(ks, f);
    }
    assert ks[0] !in p;
    forall d | d in rest ensures IsActive(g, d) <==> d in p {
      assert d in ks;
    }
    ActiveInOfPrefix(rest, f, g, p);
  }

  /** Under Simplified, exactly the first two active keys of f stay active. */
  lemma SimplifiedActive(f: Filters)
    ensures forall d :: d in Keys ==> (IsActive(Simplified(f), d) <==> d in Take(ActiveDims(f), 2))
  {
    var p := Take(ActiveDims(f), 2);
    forall d | d in Keys ensures IsActive(Simplified(f), d) <==> d in p {
      if d in p {
        assert d in ActiveDims(f);
      }
    }
  }

  /**
   * The simplified filters keep exactly the first two active filters of f, with
   * their values, so at most two are active and the AND predicate applies.
   */
  lemma SimplifiedKeepsFirstTwo(f: Filters)
    ensures ActiveDims(Simplified(f)) == Take(ActiveDims(f), 2)
    ensures ActiveCount(Simplified(f)) <= 2 && !UsesOrLogic(Simplified(f))
    ensures forall d :: IsActive(Simplified(f), d) ==> Get(Simplified(f), d) == Get(f, d)
  {
    SimplifiedActive(f);
    KeysDistinct();
    ActiveInOfPrefix(Keys, f, Simplified(f), Take(ActiveDims(f), 2));
  }

  /** Filters with at most two active keys are left as they are. */
  lemma SimplifyKeepsSmallSelections(f: Filters)
    requires ActiveCount(f) <= 2
    ensures Simplified(f) == f
  {
    assert Take(ActiveDims(f), 2) == ActiveDims(f);
    forall d ensures Get(Simplified(f), d) == Get(f, d) {
      KeysComplete(d);
    }
    FiltersExt(Simplified(f), f);
  }

  /** An age group, a gender and a race selected: three active filters, so the OR predicate applies. */
  const ThreeFilters: Filters := Filters("19-35", "female", "white", All, All, All, All)

  lemma ThreeFiltersActive()
    ensures ActiveDims(ThreeFilters) == [AgeGroup, Gender, Race]
    ensures ActiveCount(ThreeFilters) == 3 && UsesOrLogic(ThreeFilters)
  {
    FirstThreeActive(ThreeFilters);
  }

  lemma ThreeFiltersFirstTwo()
    ensures Take(ActiveDims(ThreeFilters), 2) == [AgeGroup, Gender]
  {
    ThreeFiltersActive();
  }

  /** Simplifying the three filters drops the race filter. */
  lemma SimplifyDropsThird()
    ensures Simplified(ThreeFilters) == ThreeFilters.(race := All)
    ensures Simplified(ThreeFilters) != ThreeFilters
  {
    ThreeFiltersFirstTwo();
    var f := ThreeFilters;
    var g := f.(race := All);
    var s := Simplified(f);
    assert Race !in [AgeGroup, Gender];
    forall d ensures Get(s, d) == Get(g, d) {
    }
    FiltersExt(s, g);
  }

  // ----- the component state -----

  class DashboardState {
    /** The filters being edited in the panel. */
    var tempFilters: Filters
    /** The filters in force. */
    var selectedFilters: Filters
    /** `filteredMetrics` */
    var metrics: Kpis
    /** `healthcareData`; None until the first fetch settles. */
    var data: Option<HealthcareData>
    /** `fallbackData.dashboardData.claimsData` */
    const sampleClaims: seq<Option<Claim>>
    const clock: Clock

    constructor(sampleClaims: seq<Option<Claim>>, clock: Clock)
      ensures tempFilters == NoFilters && selectedFilters == NoFilters
      ensures metrics == Kpis(0.0, 0.0, 0.0) && data.None?
      ensures this.sampleClaims == sampleClaims && this.clock == clock
    {
      tempFilters := NoFilters;
      selectedFilters := NoFilters;
      metrics := Kpis(0.0, 0.0, 0.0);
      data := None;
      this.sampleClaims := sampleClaims;
      this.clock := clock;
    }

    function Claims(): seq<Option<Claim>>
      reads this`data
    {
      WorkingClaims(data, sampleClaims)
    }

    /** The claims a set of filters keeps. With no filter set they are all claims, nulls included. */
    function Filtered(f: Filters): seq<Option<Claim>>
      reads this`data
    {
      FilterClaims(Claims(), f, clock)
    }

    /** The filters can be applied without reading a field of a null claim. */
    predicate CanApply(f: Filters)
      reads this`data
    {
      NoNulls(Filtered(f))
    }

    /** The fetch: stores the chosen data. */
    method Load(response: Option<ApiResponse>)
      modifies this
      ensures data == Some(ChooseData(response, sampleClaims))
      ensures tempFilters == old(tempFilters) && selectedFilters == old(selectedFilters) && metrics == old(metrics)
    {
      data := Some(ChooseData(response, sampleClaims));
    }

    /** handleFilterChange: only the edited filters change. */
    method ChangeFilter(d: Dimension, value: string)
      modifies this
      ensures tempFilters == WithFilter(old(tempFilters), d, value)
      ensures selectedFilters == old(selectedFilters) && metrics == old(metrics) && data == old(data)
    {
      tempFilters := WithFilter(tempFilters, d, value);
    }

    /**
     * applyFilters: the edited filters come into force and the KPIs are
     * recomputed from the claims they keep; the result says whether the
     * no-match alert is raised.
     */
    method ApplyFilters() returns (noMatchAlert: bool)
      requires CanApply(tempFilters)
      modifies this
      ensures selectedFilters == old(tempFilters) && tempFilters == old(tempFilters) && data == old(data)
      ensures metrics == KpisOf(Filtered(selectedFilters), ActiveCount(selectedFilters), MetricsOf(data))
      ensures noMatchAlert <==> |Filtered(selectedFilters)| == 0 && ActiveCount(selectedFilters) > 2
    {
      var newFilters := tempFilters;
      var filteredClaims := FilterClaims(WorkingClaims(data, sampleClaims), newFilters, clock);
      var activeFilterCount := ActiveCount(newFilters);
      noMatchAlert := |filteredClaims| == 0 && activeFilterCount > 2;
      var updated := RecomputeKpis(filteredClaims, activeFilterCount, MetricsOf(data));
      selectedFilters := newFilters;
      metrics := updated;
    }

    /** The recalculation effect that runs when the data or the selected filters change. */
    method RecalculateMetrics()
      requires CanApply(selectedFilters)
      modifies this
      ensures tempFilters == old(tempFilters) && selectedFilters == old(selectedFilters) && data == old(data)
      ensures metrics == KpisOf(Filtered(selectedFilters), ActiveCount(selectedFilters), MetricsOf(data))
    {
      var filteredClaims := FilterClaims(WorkingClaims(data, sampleClaims), selectedFilters, clock);
      metrics := RecomputeKpis(filteredClaims, ActiveCount(selectedFilters), MetricsOf(data));
    }

    /** resetFilters: both filter sets back to "all" and the KPIs to the unscaled baselines. */
    method ResetFilters()
      modifies this
      ensures tempFilters == NoFilters && selectedFilters == NoFilters
      ensures metrics == ResetKpis(MetricsOf(data)) && data == old(data)
    {
      tempFilters := NoFilters;
      selectedFilters := NoFilters;
      metrics := ResetKpis(MetricsOf(data));
    }

    /**
     * The "Simplify Filters" button as written: it stores the simplified filters,
     * then its delayed call of applyFilters copies the unchanged edited filters
     * over them, so the simplification is lost.
     */
    method SimplifyFiltersAsWritten() returns (noMatchAlert: bool)
      requires CanApply(tempFilters)
      modifies this
      ensures selectedFilters == old(tempFilters) && tempFilters == old(tempFilters) && data == old(data)
      ensures metrics == KpisOf(Filtered(selectedFilters), ActiveCount(selectedFilters), MetricsOf(data))
    {
      selectedFilters := Simplified(selectedFilters);
      noMatchAlert := ApplyFilters();
    }

    /**
     * The "Simplify Filters" button with the simplified filters also stored as
     * the edited ones, so that applying them keeps them: at most two filters
     * stay active, the first two in key order.
     */
    method SimplifyFilters() returns (noMatchAlert: bool)
      requires CanApply(Simplified(selectedFilters))
      modifies this
      ensures selectedFilters == Simplified(old(selectedFilters)) && tempFilters == selectedFilters && data == old(data)
      ensures ActiveDims(selectedFilters) == Take(ActiveDims(old(selectedFilters)), 2)
      ensures !UsesOrLogic(selectedFilters)
      ensures metrics == KpisOf(Filtered(selectedFilters), ActiveCount(selectedFilters), MetricsOf(data))
    {
      SimplifiedKeepsFirstTwo(selectedFilters);
      var simplified := Simplified(selectedFilters);
      selectedFilters := simplified;
      tempFilters := simplified;
      noMatchAlert := ApplyFilters();
    }
  }
}
