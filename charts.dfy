/**
 * The chart feeds derived from the selected filters: expenses by age group,
 * cost per condition, payer analysis, monthly cost trends, the city multiplier
 * and the procedures chart.
 */
module Charts {
  import opened Wrappers
  import opened Numbers
  import opened Text
  import opened Sequences
  import opened Claims
  import opened ConditionMatch

  // ----- expenses by age group -----

  /** One row of `expensesData`: an age group and its cost per race column. */
  datatype ExpenseRow = ExpenseRow(ageGroup: Option<string>, byRace: seq<(string, real)>)

  /** `fallbackData.dashboardData.expensesData` */
  const FallbackExpenses: seq<ExpenseRow> := [
    ExpenseRow(Some("0-18"), [("White", 4500.0), ("Black", 4200.0), ("Asian", 3800.0), ("Hispanic", 4100.0), ("Other", 4300.0)]),
    ExpenseRow(Some("19-35"), [("White", 5600.0), ("Black", 5100.0), ("Asian", 4800.0), ("Hispanic", 5300.0), ("Other", 5500.0)]),
    ExpenseRow(Some("36-50"), [("White", 7200.0), ("Black", 6800.0), ("Asian", 6500.0), ("Hispanic", 7000.0), ("Other", 7100.0)]),
    ExpenseRow(Some("51-65"), [("White", 9500.0), ("Black", 9000.0), ("Asian", 8700.0), ("Hispanic", 9200.0), ("Other", 9300.0)]),
    ExpenseRow(Some("65+"), [("White", 12000.0), ("Black", 11500.0), ("Asian", 11000.0), ("Hispanic", 11700.0), ("Other", 11800.0)])]

  predicate InAgeGroup(row: ExpenseRow, ageGroup: string) {
    row.ageGroup == Some(ageGroup)
  }

  /**
   * getFilteredExpensesData. Only the age-group filter narrows the rows, and a
   * selection that no row matches shows every row rather than none.
   */
  function FilteredExpenses(source: Option<seq<ExpenseRow>>, f: Filters): (r: seq<ExpenseRow>)
    ensures source.None? ==> r == FallbackExpenses
    ensures source.Some? ==> IsSubsequence(r, source.value)
    ensures source.Some? && (ActiveCount(f) == 0 || f.ageGroup == All) ==> r == source.value
    ensures source.Some? && ActiveCount(f) > 0 && f.ageGroup != All ==>
              if exists i :: 0 <= i < |source.value| && InAgeGroup(source.value[i], f.ageGroup)
              then (forall x :: x in r <==> x in source.value && InAgeGroup(x, f.ageGroup)) &&
                   (forall x :: multiset(r)[x] == if InAgeGroup(x, f.ageGroup) then multiset(source.value)[x] else 0)
              else r == source.value
  {
    if source.None? then FallbackExpenses
    else
      var data := source.value;
      SubsequenceOfSelf(data);
      if ActiveCount(f) == 0 then data
      else
        var filtered := if f.ageGroup != All then Keep(data, (row: ExpenseRow) => InAgeGroup(row, f.ageGroup)) else data;
        if |filtered| > 0 then
          assert f.ageGroup != All ==> exists i :: 0 <= i < |data| && InAgeGroup(data[i], f.ageGroup) by {
            if f.ageGroup != All {
              assert filtered[0] in filtered;
              var i :| 0 <= i < |data| && data[i] == filtered[0];
            }
          }
          filtered
        else
          assert f.ageGroup != All ==> forall i :: 0 <= i < |data| ==> !InAgeGroup(data[i], f.ageGroup) by {
            if f.ageGroup != All {
              forall i | 0 <= i < |data| ensures !InAgeGroup(data[i], f.ageGroup) {
                assert data[i] in data;
              }
            }
          }
          data
  }

  /** A non-empty expenses table never produces an empty chart. */
  lemma FilteredExpensesNonEmpty(source: Option<seq<ExpenseRow>>, f: Filters)
    requires source.Some? ==> |source.value| > 0
    ensures |FilteredExpenses(source, f)| > 0
  {
    var r := FilteredExpenses(source, f);
    if source.Some? && ActiveCount(f) > 0 && f.ageGroup != All {
      if exists i :: 0 <= i < |source.value| && InAgeGroup(source.value[i], f.ageGroup) {
        var i :| 0 <= i < |source.value| && InAgeGroup(source.value[i], f.ageGroup);
        assert source.value[i] in r;
      }
    }
  }

  // ----- cost per condition -----

  datatype ConditionCost = ConditionCost(condition: string, averageCost: real, patientCount: real)

  /** `fallbackData.dashboardData.conditionCostData` */
  const FallbackConditionCosts: seq<ConditionCost> := [
    ConditionCost("Diabetes", 12500.0, 215.0),
    ConditionCost("Hypertension", 9800.0, 320.0),
    ConditionCost("Asthma", 7500.0, 180.0),
    ConditionCost("Heart Disease", 18900.0, 145.0),
    ConditionCost("Cancer", 32500.0, 90.0)]

  /** The row's condition contains the filter value, ignoring case. */
  predicate ConditionRowMatches(row: ConditionCost, condition: string) {
    Includes(Lower(row.condition), Lower(condition))
  }

  /** getFilteredConditionCostData: the rows whose condition contains the filter value, ignoring case. */
  function FilteredConditionCosts(source: Option<seq<ConditionCost>>, f: Filters): (r: seq<ConditionCost>)
    ensures source.None? ==> r == FallbackConditionCosts
    ensures source.Some? && f.condition == All ==> r == source.value
    ensures source.Some? && f.condition != All ==>
              IsSubsequence(r, source.value) &&
              forall x :: x in r <==> x in source.value && ConditionRowMatches(x, f.condition)
    ensures source.Some? && f.condition != All ==>
              forall x :: multiset(r)[x] == if ConditionRowMatches(x, f.condition) then multiset(source.value)[x] else 0
  {
    if source.None? then FallbackConditionCosts
    else if f.condition == All then source.value
    else Keep(source.value, (row: ConditionCost) => ConditionRowMatches(row, f.condition))
  }

  /** Typing the condition filter in a different case selects the same rows. */
  lemma ConditionCostsIgnoreFilterCase(source: Option<seq<ConditionCost>>, f: Filters)
    requires f.condition != All && Lower(f.condition) != All
    ensures FilteredConditionCosts(source, f.(condition := Lower(f.condition))) == FilteredConditionCosts(source, f)
  {
    LowerIdempotent(f.condition);
    var g := f.(condition := Lower(f.condition));
    assert forall row :: ConditionRowMatches(row, g.condition) == ConditionRowMatches(row, f.condition);
    if source.Some? {
      KeepCongruent(source.value, (row: ConditionCost) => ConditionRowMatches(row, g.condition),
                    (row: ConditionCost) => ConditionRowMatches(row, f.condition));
    }
  }

  // ----- payer analysis -----

  datatype PayerRow = PayerRow(name: string, covered: real, uncovered: real, customers: real)

  /** `fallbackData.dashboardData.payerAnalysisData` */
  const FallbackPayerAnalysis: seq<PayerRow> := [
    PayerRow("Medicare", 125000.0, 25000.0, 450.0),
    PayerRow("Medicaid", 80000.0, 22000.0, 320.0),
    PayerRow("Blue Cross", 180000.0, 15000.0, 280.0),
    PayerRow("Aetna", 150000.0, 18000.0, 220.0),
    PayerRow("UnitedHealth", 210000.0, 20000.0, 350.0)]

  /** `conditionPayers`, looked up by the exact filter value; other values list no payer. */
  function ConditionPayers(condition: string): seq<string> {
    if condition == "diabetes" then ["Medicare", "Medicaid"]
    else if condition == "hypertension" then ["Blue Cross", "Aetna"]
    else if condition == "heart" then ["UnitedHealth", "Medicare"]
    else []
  }

  /**
   * getFilteredPayerAnalysisData. A condition filter keeps the payers listed for
   * it; an empty result, and in particular any condition outside the list, shows
   * the fallback table.
   */
  function FilteredPayerAnalysis(source: Option<seq<PayerRow>>, f: Filters): (r: seq<PayerRow>)
    ensures |r| > 0
    ensures source.None? ==> r == FallbackPayerAnalysis
    ensures source.Some? && f.condition == All ==>
              r == if |source.value| > 0 then source.value else FallbackPayerAnalysis
    ensures source.Some? && f.condition != All ==>
              if exists x :: x in source.value && x.name in ConditionPayers(f.condition)
              then IsSubsequence(r, source.value) &&
                   forall x :: multiset(r)[x] ==
                     if x.name in ConditionPayers(f.condition) then multiset(source.value)[x] else 0
              else r == FallbackPayerAnalysis
    ensures ConditionPayers(f.condition) == [] && f.condition != All ==> r == FallbackPayerAnalysis
  {
    if source.None? then FallbackPayerAnalysis
    else
      var data := if f.condition != All
        then Keep(source.value, (payer: PayerRow) => payer.name in ConditionPayers(f.condition))
        else source.value;
      if |data| > 0 then data
      else
        assert f.condition != All ==>
                 forall x :: x in source.value ==> x.name !in ConditionPayers(f.condition);
        FallbackPayerAnalysis
  }

  // ----- monthly cost trends -----

  datatype TrendRow = TrendRow(month: string, hospitalCosts: real, primaryCare: real, medications: real)

  /** `costTrendsData`, the component's own table. */
  const CostTrends: seq<TrendRow> := [
    TrendRow("Jan", 1200.0, 800.0, 600.0),
    TrendRow("Feb", 1300.0, 750.0, 650.0),
    TrendRow("Mar", 1100.0, 800.0, 700.0),
    TrendRow("Apr", 1400.0, 850.0, 600.0),
    TrendRow("May", 1500.0, 900.0, 550.0),
    TrendRow("Jun", 1600.0, 950.0, 650.0)]

  function TrendAgeFactor(ageGroup: string): real {
    if ageGroup == "0-18" then 0.7
    else if ageGroup == "19-35" then 0.9
    else if ageGroup == "36-50" then 1.2
    else if ageGroup == "51-65" then 1.5
    else if ageGroup == "65+" then 1.8
    else 1.0
  }

  function TrendConditionFactor(condition: string): real {
    if condition == "diabetes" then 1.3
    else if condition == "hypertension" then 1.2
    else if condition == "asthma" then 1.1
    else if condition == "heart" then 1.7
    else if condition == "cancer" then 2.1
    else 1.0
  }

  /** The multiplier every trend row is scaled by: one factor per recognised age group and condition. */
  function TrendMultiplier(f: Filters): (m: real)
    ensures 0.7 <= m <= 1.8 * 2.1
  {
    TrendAgeFactor(f.ageGroup) * TrendConditionFactor(f.condition)
  }

  /** One row scaled by m, each cost rounded with `Math.round`. */
  function ScaledTrend(row: TrendRow, m: real): TrendRow {
    row.(hospitalCosts := RoundedProduct(row.hospitalCosts, m),
         primaryCare := RoundedProduct(row.primaryCare, m),
         medications := RoundedProduct(row.medications, m))
  }

  /** getFilteredCostTrendsData */
  function FilteredCostTrends(f: Filters): (r: seq<TrendRow>)
    ensures |r| == |CostTrends|
    ensures ActiveCount(f) == 0 ==> r == CostTrends
    ensures forall i :: 0 <= i < |r| ==> r[i].month == CostTrends[i].month
    ensures ActiveCount(f) > 0 ==> forall i :: 0 <= i < |r| ==> r[i] == ScaledTrend(CostTrends[i], TrendMultiplier(f))
  {
    if ActiveCount(f) == 0 then CostTrends
    else seq(|CostTrends|, i requires 0 <= i < |CostTrends| => ScaledTrend(CostTrends[i], TrendMultiplier(f)))
  }

  /** Each scaled cost is within half a unit of the exact product. */
  lemma ScaledTrendNear(row: TrendRow, m: real)
    ensures row.hospitalCosts * m - 0.5 < ScaledTrend(row, m).hospitalCosts <= row.hospitalCosts * m + 0.5
    ensures row.primaryCare * m - 0.5 < ScaledTrend(row, m).primaryCare <= row.primaryCare * m + 0.5
    ensures row.medications * m - 0.5 < ScaledTrend(row, m).medications <= row.medications * m + 0.5
  {
    RoundedProductNear(row.hospitalCosts, m);
    RoundedProductNear(row.primaryCare, m);
    RoundedProductNear(row.medications, m);
  }

  /** Filters on race, gender, location, date or cost leave the trend table as it is. */
  lemma TrendsIgnoreOtherFilters(f: Filters)
    requires TrendAgeFactor(f.ageGroup) == 1.0 && TrendConditionFactor(f.condition) == 1.0
    ensures FilteredCostTrends(f) == CostTrends
  {
    if ActiveCount(f) > 0 {
      forall i | 0 <= i < |CostTrends| ensures ScaledTrend(CostTrends[i], 1.0) == CostTrends[i] {
        var row := CostTrends[i];
        RoundedProductUnit(row.hospitalCosts);
        RoundedProductUnit(row.primaryCare);
        RoundedProductUnit(row.medications);
      }
    }
  }

  // ----- the city multiplier -----

  function CityAgeFactor(ageGroup: string): real {
    if ageGroup == "0-18" then 0.6
    else if ageGroup == "19-35" then 0.8
    else if ageGroup == "36-50" then 1.1
    else if ageGroup == "51-65" then 1.3
    else if ageGroup == "65+" then 1.5
    else 1.0
  }

  function CityConditionFactor(condition: string): real {
    if condition == "diabetes" then 1.2
    else if condition == "hypertension" then 1.1
    else if condition == "asthma" then 0.9
    else if condition == "heart" then 1.5
    else if condition == "cancer" then 1.8
    else 1.0
  }

  function CityGenderFactor(gender: string): real {
    if gender == "male" then 1.05
    else if gender == "female" then 0.95
    else 1.0
  }

  /**
   * calculateMultiplierFromFilters: starting from 1, the multiplier is scaled
   * once per recognised age group, condition and gender, so it is the product of
   * the three factors and lies between 0.6·0.9·0.95 = 0.513 and 1.5·1.8·1.05 = 2.835.
   */
  method CalculateMultiplier(f: Filters) returns (multiplier: real)
    ensures multiplier == CityAgeFactor(f.ageGroup) * CityConditionFactor(f.condition) * CityGenderFactor(f.gender)
    ensures 0.513 <= multiplier <= 2.835
    ensures f.ageGroup == All && f.condition == All && f.gender == All ==> multiplier == 1.0
  {
    multiplier := 1.0;
    if f.ageGroup != All {
      if f.ageGroup == "0-18" { multiplier := multiplier * 0.6; }
      else if f.ageGroup == "19-35" { multiplier := multiplier * 0.8; }
      else if f.ageGroup == "36-50" { multiplier := multiplier * 1.1; }
      else if f.ageGroup == "51-65" { multiplier := multiplier * 1.3; }
      else if f.ageGroup == "65+" { multiplier := multiplier * 1.5; }
    }
    assert multiplier == CityAgeFactor(f.ageGroup);
    if f.condition != All {
      if f.condition == "diabetes" { multiplier := multiplier * 1.2; }
      else if f.condition == "hypertension" { multiplier := multiplier * 1.1; }
      else if f.condition == "asthma" { multiplier := multiplier * 0.9; }
      else if f.condition == "heart" { multiplier := multiplier * 1.5; }
      else if f.condition == "cancer" { multiplier := multiplier * 1.8; }
    }
    assert multiplier == CityAgeFactor(f.ageGroup) * CityConditionFactor(f.condition);
    if f.gender != All {
      if f.gender == "male" { multiplier := multiplier * 1.05; }
      else if f.gender == "female" { multiplier := multiplier * 0.95; }
    }
    MultiplierBounds(CityAgeFactor(f.ageGroup), CityConditionFactor(f.condition), CityGenderFactor(f.gender));
  }

  lemma MultiplierBounds(a: real, c: real, g: real)
    requires 0.6 <= a <= 1.5 && 0.9 <= c <= 1.8 && 0.95 <= g <= 1.05
    ensures 0.513 <= a * c * g <= 2.835
  {
    MulMonotone(0.6, a, c);
    assert 0.54 <= 0.6 * c <= a * c;
    MulMonotone(a, 1.5, c);
    assert a * c <= 1.5 * c <= 2.7;
    ScaledBetween(a * c, g);
  }

  lemma ScaledBetween(p: real, g: real)
    requires 0.54 <= p <= 2.7 && 0.95 <= g <= 1.05
    ensures 0.513 <= p * g <= 2.835
  {
    MulMonotone(0.54, p, g);
    assert 0.513 <= 0.54 * g <= p * g;
    MulMonotone(p, 2.7, g);
    assert p * g <= 2.7 * g <= 2.835;
  }

  lemma MulMonotone(x: real, y: real, z: real)
    requires x <= y && z >= 0.0
    ensures x * z <= y * z
  {
    assert y * z - x * z == (y - x) * z;
  }

  // ----- procedures -----

  datatype Procedure = Procedure(name: string, cost: real)

  function ProcedureCost(p: Procedure): real { p.cost }

  /** `fallbackData.dashboardData.proceduresData` */
  const FallbackProcedures: seq<Procedure> := [
    Procedure("Heart Surgery", 35000.0),
    Procedure("Joint Replacement", 28000.0),
    Procedure("MRI Scan", 2500.0),
    Procedure("Chemotherapy", 18000.0),
    Procedure("Emergency Room Visit", 1800.0)]

  /** `allProcedures` */
  const AllProcedures: seq<Procedure> := [
    Procedure("Heart Surgery", 35000.0),
    Procedure("Joint Replacement", 28000.0),
    Procedure("MRI Scan", 2500.0),
    Procedure("Chemotherapy", 18000.0),
    Procedure("Emergency Room Visit", 1800.0),
    Procedure("Colonoscopy", 3200.0),
    Procedure("Cataract Surgery", 4500.0),
    Procedure("Physical Therapy", 1200.0),
    Procedure("Kidney Transplant", 42000.0),
    Procedure("Appendectomy", 16500.0)]

  /** `conditionProcedures`, in its key order. */
  const ConditionProcedures: seq<(string, seq<Procedure>)> := [
    ("diabetes", [Procedure("Blood Test", 300.0), Procedure("Diabetes Screening", 1200.0), Procedure("Insulin Therapy", 4500.0),
                  Procedure("Foot Exam", 800.0), Procedure("Retinopathy Screening", 1500.0)]),
    ("hypertension", [Procedure("Blood Pressure Check", 200.0), Procedure("EKG", 900.0), Procedure("Medication Review", 1800.0),
                      Procedure("Renal Function Test", 600.0), Procedure("Cardiology Consultation", 2500.0)]),
    ("asthma", [Procedure("Pulmonary Function Test", 400.0), Procedure("Inhaler Training", 500.0), Procedure("Allergy Testing", 1500.0),
                Procedure("Chest X-Ray", 700.0), Procedure("Pulmonology Consultation", 1800.0)]),
    ("heart", [Procedure("Echocardiogram", 2500.0), Procedure("Cardiac Catheterization", 12000.0), Procedure("Heart Surgery", 35000.0),
               Procedure("Stress Test", 1800.0), Procedure("Coronary Angioplasty", 28000.0)]),
    ("cancer", [Procedure("Chemotherapy", 18000.0), Procedure("Radiation Therapy", 22000.0), Procedure("Tumor Biopsy", 5000.0),
                Procedure("PET Scan", 4000.0), Procedure("Oncology Consultation", 1500.0)])]

  /** The age factor table of the procedures chart; `|| 1.0` for any other age group. */
  function ProcedureAgeFactor(ageGroup: string): real {
    if ageGroup == "0-18" then 0.7
    else if ageGroup == "19-35" then 0.9
    else if ageGroup == "36-50" then 1.1
    else if ageGroup == "51-65" then 1.3
    else if ageGroup == "65+" then 1.5
    else 1.0
  }

  function ProcedureGenderFactor(gender: string): real {
    if gender == "male" then 1.1
    else if gender == "female" then 0.95
    else 1.0
  }

  /** Every cost multiplied by k and rounded with `Math.round`. */
  function ScaleCosts(ps: seq<Procedure>, k: real): (r: seq<Procedure>)
    ensures |r| == |ps|
    ensures forall i :: 0 <= i < |r| ==> r[i] == Procedure(ps[i].name, RoundedProduct(ps[i].cost, k))
  {
    if ps == [] then []
    else
      var rest := ScaleCosts(ps[1..], k);
      assert forall i :: 1 <= i < |ps| ==> rest[i - 1] == Procedure(ps[i].name, RoundedProduct(ps[i].cost, k));
      [Procedure(ps[0].name, RoundedProduct(ps[0].cost, k))] + rest
  }

  /** The five most expensive, most expensive first (`sort((a, b) => b.cost - a.cost).slice(0, 5)`). */
  function TopFive(ps: seq<Procedure>): (r: seq<Procedure>)
    ensures |r| == if |ps| < 5 then |ps| else 5
    ensures multiset(r) <= multiset(ps)
    ensures NonIncreasing(r, ProcedureCost)
  {
    TakeOfSortedIsTop(ps, 5, ProcedureCost);
    Take(SortDesc(ps, ProcedureCost), 5)
  }

  /** The general list with the age and then the gender factor applied, for the filters that are active. */
  function GeneralProcedures(f: Filters): (r: seq<Procedure>)
    ensures |r| == |AllProcedures|
    ensures f.ageGroup == All && f.gender == All ==> r == AllProcedures
    ensures forall i :: 0 <= i < |r| ==>
              var c := AllProcedures[i].cost;
              var aged := if f.ageGroup != All then RoundedProduct(c, ProcedureAgeFactor(f.ageGroup)) else c;
              r[i] == Procedure(AllProcedures[i].name,
                                if f.gender != All then RoundedProduct(aged, ProcedureGenderFactor(f.gender)) else aged)
  {
    var byAge := if f.ageGroup != All then ScaleCosts(AllProcedures, ProcedureAgeFactor(f.ageGroup)) else AllProcedures;
    if f.gender != All then ScaleCosts(byAge, ProcedureGenderFactor(f.gender)) else byAge
  }

  /** Which of the three branches of the procedures chart a filter selection takes. */
  function ConditionBranch(f: Filters): Option<nat> {
    if f.condition != All then MatchingKey(ConditionProcedures, f.condition) else None
  }

  /**
   * getFilteredProceduresData. A condition filter related to a key of the
   * condition table shows that key's five procedures in table order, rescaled by
   * the age factor when an age group is selected. Otherwise the general list,
   * rescaled by the age and gender factors of the active filters, is ranked and cut
   * to its five most expensive entries.
   */
  function FilteredProcedures(hasSource: bool, f: Filters): (r: seq<Procedure>)
    ensures !hasSource ==> r == FallbackProcedures
    ensures hasSource && ConditionBranch(f).Some? ==>
              var entry := ConditionProcedures[ConditionBranch(f).value].1;
              r == (if f.ageGroup != All then ScaleCosts(entry, ProcedureAgeFactor(f.ageGroup)) else entry)
    ensures hasSource && ConditionBranch(f).None? ==> |r| == 5 && NonIncreasing(r, ProcedureCost)
    ensures hasSource && ConditionBranch(f).None? ==> r == TopFive(GeneralProcedures(f))
  {
    AllUnsetIffNoneActive(f);
    assert ActiveCount(f) == 0 ==> Get(f, AgeGroup) == All && Get(f, Gender) == All;
    if !hasSource then FallbackProcedures
    else
      match ConditionBranch(f)
      case Some(j) =>
        var entry := ConditionProcedures[j].1;
        if f.ageGroup != All then ScaleCosts(entry, ProcedureAgeFactor(f.ageGroup)) else entry
      case None =>
        if ActiveCount(f) > 0 then TopFive(GeneralProcedures(f)) else TopFive(AllProcedures)
  }

  /** Outside the condition branch, no procedure left out costs more than the cheapest one shown. */
  lemma ProceduresAreTopFive(ps: seq<Procedure>)
    requires |ps| >= 5
    ensures forall x :: x in multiset(ps) - multiset(TopFive(ps)) ==> x.cost <= TopFive(ps)[4].cost
  {
    TakeOfSortedIsTop(ps, 5, ProcedureCost);
  }

  /** Every procedure shown costs more than zero. */
  lemma ProcedureCostsPositive(hasSource: bool, f: Filters)
    ensures forall p :: p in FilteredProcedures(hasSource, f) ==> p.cost > 0.0
  {
    if !hasSource {
      FallbackProceduresPositive(f);
    } else if ConditionBranch(f).Some? {
      ConditionBranchPositive(f, ConditionBranch(f).value);
    } else {
      GeneralBranchPositive(f);
    }
  }

  lemma FallbackProceduresPositive(f: Filters)
    ensures forall p :: p in FilteredProcedures(false, f) ==> p.cost > 0.0
  {
    forall p | p in FallbackProcedures ensures p.cost > 0.0 {
      var i :| 0 <= i < |FallbackProcedures| && FallbackProcedures[i] == p;
    }
  }

  lemma ConditionBranchPositive(f: Filters, j: nat)
    requires ConditionBranch(f) == Some(j)
    ensures forall p :: p in FilteredProcedures(true, f) ==> p.cost > 0.0
  {
    ConditionEntryPositive(j, f.ageGroup);
  }

  /** The condition branch's list, rescaled by the age factor when an age group is selected. */
  lemma ConditionEntryPositive(j: nat, ageGroup: string)
    requires j < |ConditionProcedures|
    ensures forall p :: p in ConditionProcedures[j].1 ==> p.cost > 0.0
    ensures forall p :: p in ScaleCosts(ConditionProcedures[j].1, ProcedureAgeFactor(ageGroup)) ==> p.cost > 0.0
  {
    ConditionProceduresCostAtLeast(j);
    ProcedureAgeFactorAtLeast(ageGroup);
    ScaledCostsPositive(ConditionProcedures[j].1, ProcedureAgeFactor(ageGroup), 200.0);
  }

  lemma ProcedureAgeFactorAtLeast(ageGroup: string)
    ensures ProcedureAgeFactor(ageGroup) >= 0.7
  {
  }

  lemma GeneralBranchPositive(f: Filters)
    requires ConditionBranch(f).None?
    ensures forall p :: p in FilteredProcedures(true, f) ==> p.cost > 0.0
  {
    if ActiveCount(f) > 0 {
      GeneralProceduresCostAtLeast(f);
      TopFiveKeepsLowerBound(GeneralProcedures(f), 1.0);
      assert FilteredProcedures(true, f) == TopFive(GeneralProcedures(f));
    } else {
      AllProceduresCostAtLeast();
      TopFiveKeepsLowerBound(AllProcedures, 1.0);
      assert FilteredProcedures(true, f) == TopFive(AllProcedures);
    }
  }

  lemma ConditionProceduresCostAtLeast(j: nat)
    requires j < |ConditionProcedures|
    ensures forall p :: p in ConditionProcedures[j].1 ==> p.cost >= 200.0
  {
    var entry := ConditionProcedures[j].1;
    forall p | p in entry ensures p.cost >= 200.0 {
      var i :| 0 <= i < |entry| && entry[i] == p;
      if j == 0 {} else if j == 1 {} else if j == 2 {} else if j == 3 {} else {}
    }
  }

  lemma AllProceduresCostAtLeast()
    ensures forall p :: p in AllProcedures ==> p.cost >= 1200.0
  {
    forall p | p in AllProcedures ensures p.cost >= 1200.0 {
      var i :| 0 <= i < |AllProcedures| && AllProcedures[i] == p;
    }
  }

  lemma GeneralProceduresCostAtLeast(f: Filters)
    ensures forall p :: p in GeneralProcedures(f) ==> p.cost >= 1.0
  {
    AllProceduresCostAtLeast();
    var byAge := if f.ageGroup != All then ScaleCosts(AllProcedures, ProcedureAgeFactor(f.ageGroup)) else AllProcedures;
    if f.ageGroup != All {
      ScaledCostsPositive(AllProcedures, ProcedureAgeFactor(f.ageGroup), 1200.0);
    }
    if f.gender != All {
      ScaledCostsPositive(byAge, ProcedureGenderFactor(f.gender), 1.0);
    }
  }

  lemma TopFiveKeepsLowerBound(ps: seq<Procedure>, least: real)
    requires forall p :: p in ps ==> p.cost >= least
    ensures forall p :: p in TopFive(ps) ==> p.cost >= least
  {
    forall p | p in TopFive(ps) ensures p.cost >= least {
      assert p in multiset(ps);
    }
  }

  /** Costs of at least `least` (itself at least 1), scaled by a factor of at least 0.7, stay at least 1. */
  lemma ScaledCostsPositive(ps: seq<Procedure>, k: real, least: real)
    requires least >= 1.0 && k >= 0.7
    requires forall p :: p in ps ==> p.cost >= least
    ensures forall p :: p in ScaleCosts(ps, k) ==> p.cost >= 1.0
  {
    var r := ScaleCosts(ps, k);
    forall p | p in r ensures p.cost >= 1.0 {
      var i :| 0 <= i < |r| && r[i] == p;
      assert ps[i] in ps;
      RoundedProductAtLeastOne(ps[i].cost, k);
    }
  }
}
