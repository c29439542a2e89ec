/**
 * The cost-driver breakdown under filters: category percentages nudged by
 * table-driven adjustments for the condition, age group and gender filters,
 * renormalised to 100 and rounded, with each category's cost rescaled by its
 * change of share.
 */
module CostDrivers {
  import opened Wrappers
  import opened Numbers
  import opened Text
  import opened Claims
  import opened ConditionMatch

  datatype CostDriver = CostDriver(category: string, cost: real, percentage: real)

  /** `adjustments[category] || 0` */
  function AdjustmentFor(adjustments: map<string, real>, category: string): real {
    if category in adjustments then adjustments[category] else 0.0
  }

  function SumPercentages(xs: seq<CostDriver>): real {
    if xs == [] then 0.0 else xs[0].percentage + SumPercentages(xs[1..])
  }

  /** First pass: each percentage moved by its adjustment, never below 3. */
  function AdjustedShares(data: seq<CostDriver>, adjustments: map<string, real>): (r: seq<CostDriver>)
    ensures |r| == |data|
    ensures forall i :: 0 <= i < |r| ==> r[i].category == data[i].category && r[i].cost == data[i].cost
    ensures forall i :: 0 <= i < |r| ==> r[i].percentage >= 3.0
    ensures forall i :: 0 <= i < |r| ==>
              r[i].percentage == Max(3.0, data[i].percentage + AdjustmentFor(adjustments, data[i].category))
  {
    seq(|data|, i requires 0 <= i < |data| =>
      data[i].(percentage := Max(3.0, data[i].percentage + AdjustmentFor(adjustments, data[i].category))))
  }

  /** The shares multiplied by k, before rounding. */
  function ScaledShares(xs: seq<CostDriver>, k: real): (r: seq<CostDriver>)
    ensures |r| == |xs|
  {
    if xs == [] then [] else [xs[0].(percentage := xs[0].percentage * k)] + ScaledShares(xs[1..], k)
  }

  /** One share multiplied by k and rounded with `Math.round`. */
  function RoundedShare(x: CostDriver, k: real): CostDriver {
    x.(percentage := RoundedProduct(x.percentage, k))
  }

  function RoundedShares(xs: seq<CostDriver>, k: real): (r: seq<CostDriver>)
    ensures |r| == |xs|
    ensures forall i :: 0 <= i < |xs| ==> r[i] == RoundedShare(xs[i], k)
  {
    if xs == [] then []
    else
      var rest := RoundedShares(xs[1..], k);
      assert forall i :: 1 <= i < |xs| ==> rest[i - 1] == RoundedShare(xs[i], k);
      [RoundedShare(xs[0], k)] + rest
  }

  /** A share of at most the total, scaled to a total of 100 and rounded, lies between 0 and 100. */
  lemma RoundedShareInRange(x: CostDriver, total: real)
    requires total > 0.0 && 0.0 <= x.percentage <= total
    ensures 0.0 <= RoundedShare(x, 100.0 / total).percentage <= 100.0
  {
    ScaledShareAtMost100(x.percentage, total);
    RoundedProductBetween(x.percentage, 100.0 / total);
  }

  /** Driver i's share of the total, scaled so that all shares total 100 (0 for a zero total). */
  function ExactShare(xs: seq<CostDriver>, i: nat): real
    requires i < |xs|
  {
    var total := SumPercentages(xs);
    if total == 0.0 then 0.0 else xs[i].percentage * (100.0 / total)
  }

  /** Second pass: rescale positive shares so they total 100, then round each. */
  function Normalised(adjusted: seq<CostDriver>): (r: seq<CostDriver>)
    requires |adjusted| > 0
    requires forall i :: 0 <= i < |adjusted| ==> adjusted[i].percentage >= 3.0
    ensures |r| == |adjusted|
    ensures forall i :: 0 <= i < |r| ==> r[i].category == adjusted[i].category && r[i].cost == adjusted[i].cost
    ensures forall i :: 0 <= i < |r| ==> 0.0 <= r[i].percentage <= 100.0 && r[i].percentage == r[i].percentage.Floor as real
    ensures 100.0 - 0.5 * (|adjusted| as real) <= SumPercentages(r) <= 100.0 + 0.5 * (|adjusted| as real)
    ensures forall i :: 0 <= i < |r| ==> ExactShare(adjusted, i) - 0.5 < r[i].percentage <= ExactShare(adjusted, i) + 0.5
  {
    var total := SumPercentages(adjusted);
    PositiveSharesBound(adjusted);
    var r := RoundedShares(adjusted, 100.0 / total);
    SharesInRange(adjusted, total, r);
    SumNearHundred(adjusted, total);
    SharesNearExact(adjusted, total, r);
    r
  }

  /** Each rounded share is within half a point of the exact one. */
  lemma SharesNearExact(adjusted: seq<CostDriver>, total: real, r: seq<CostDriver>)
    requires total > 0.0 && total == SumPercentages(adjusted)
    requires |r| == |adjusted| && forall i :: 0 <= i < |r| ==> r[i] == RoundedShare(adjusted[i], 100.0 / total)
    ensures forall i :: 0 <= i < |r| ==> ExactShare(adjusted, i) - 0.5 < r[i].percentage <= ExactShare(adjusted, i) + 0.5
  {
    forall i | 0 <= i < |r| ensures ExactShare(adjusted, i) - 0.5 < r[i].percentage <= ExactShare(adjusted, i) + 0.5 {
      assert ExactShare(adjusted, i) == adjusted[i].percentage * (100.0 / total);
      ShareNear(adjusted[i], 100.0 / total, r[i]);
    }
  }

  lemma ShareNear(x: CostDriver, k: real, y: CostDriver)
    requires y == RoundedShare(x, k)
    ensures x.percentage * k - 0.5 < y.percentage <= x.percentage * k + 0.5
  {
    RoundedProductNear(x.percentage, k);
  }

  lemma SharesInRange(adjusted: seq<CostDriver>, total: real, r: seq<CostDriver>)
    requires total > 0.0 && forall i :: 0 <= i < |adjusted| ==> 0.0 <= adjusted[i].percentage <= total
    requires |r| == |adjusted| && forall i :: 0 <= i < |r| ==> r[i] == RoundedShare(adjusted[i], 100.0 / total)
    ensures forall i :: 0 <= i < |r| ==> 0.0 <= r[i].percentage <= 100.0 && r[i].percentage == r[i].percentage.Floor as real
  {
    forall i | 0 <= i < |r| ensures 0.0 <= r[i].percentage <= 100.0 {
      RoundedShareInRange(adjusted[i], total);
    }
  }

  lemma SumNearHundred(adjusted: seq<CostDriver>, total: real)
    requires total > 0.0 && total == SumPercentages(adjusted)
    ensures 100.0 - 0.5 * (|adjusted| as real) <= SumPercentages(RoundedShares(adjusted, 100.0 / total))
    ensures SumPercentages(RoundedShares(adjusted, 100.0 / total)) <= 100.0 + 0.5 * (|adjusted| as real)
  {
    RoundedSumNear(adjusted, 100.0 / total);
    TotalTimesScale(total);
  }

  lemma TotalTimesScale(total: real)
    requires total > 0.0
    ensures (100.0 / total) * total == 100.0
  {
  }

  /**
   * adjustCategoryPercentages: adjust, floor at 3, rescale so the shares total
   * 100, round. Order, categories and costs are kept, every share is a whole
   * number between 0 and 100, and rounding moves the total by at most half a
   * point per category.
   */
  function AdjustCategoryPercentages(data: seq<CostDriver>, adjustments: map<string, real>): (r: seq<CostDriver>)
    ensures |r| == |data|
    ensures forall i :: 0 <= i < |r| ==> r[i].category == data[i].category && r[i].cost == data[i].cost
    ensures forall i :: 0 <= i < |r| ==> 0.0 <= r[i].percentage <= 100.0 && r[i].percentage == r[i].percentage.Floor as real
    ensures |data| > 0 ==> 100.0 - 0.5 * (|data| as real) <= SumPercentages(r) <= 100.0 + 0.5 * (|data| as real)
    ensures forall i :: 0 <= i < |r| ==>
              var adjusted := AdjustedShares(data, adjustments);
              ExactShare(adjusted, i) - 0.5 < r[i].percentage <= ExactShare(adjusted, i) + 0.5
  {
    if |data| == 0 then [] else Normalised(AdjustedShares(data, adjustments))
  }

  lemma ScaledShareAtMost100(p: real, total: real)
    requires 0.0 <= p <= total && total > 0.0
    ensures 0.0 <= p * (100.0 / total) <= 100.0
  {
    assert p * (100.0 / total) == 100.0 * (p / total);
    assert p / total <= 1.0;
  }

  /** With every share at least 3, the total is positive and bounds each share. */
  lemma {:induction false} PositiveSharesBound(xs: seq<CostDriver>)
    requires |xs| > 0
    requires forall i :: 0 <= i < |xs| ==> xs[i].percentage >= 3.0
    ensures SumPercentages(xs) >= 3.0
    ensures forall i :: 0 <= i < |xs| ==> xs[i].percentage <= SumPercentages(xs)
  {
    if |xs| > 1 {
      PositiveSharesBound(xs[1..]);
      forall i | 1 <= i < |xs| ensures xs[i].percentage <= SumPercentages(xs) {
        assert xs[1..][i - 1] == xs[i];
      }
    }
  }

  lemma {:induction false} SumScaled(xs: seq<CostDriver>, k: real)
    ensures SumPercentages(ScaledShares(xs, k)) == k * SumPercentages(xs)
  {
    if xs != [] {
      SumScaled(xs[1..], k);
    }
  }

  /** Before rounding, the rescaled shares total exactly 100. */
  lemma ExactSharesSumTo100(xs: seq<CostDriver>)
    requires SumPercentages(xs) != 0.0
    ensures SumPercentages(ScaledShares(xs, 100.0 / SumPercentages(xs))) == 100.0
  {
    SumScaled(xs, 100.0 / SumPercentages(xs));
  }

  /** Rounding each scaled share moves the total by at most half a point per share. */
  lemma {:induction false} RoundedSumNear(xs: seq<CostDriver>, k: real)
    ensures k * SumPercentages(xs) - 0.5 * (|xs| as real) <= SumPercentages(RoundedShares(xs, k))
    ensures SumPercentages(RoundedShares(xs, k)) <= k * SumPercentages(xs) + 0.5 * (|xs| as real)
  {
    if xs != [] {
      RoundedSumNear(xs[1..], k);
    }
  }

  // ----- the adjustment tables -----

  /** `conditionMap`, in its key order. */
  const ConditionMap: seq<(string, seq<string>)> := [
    ("diabetes", ["Medications", "Chronic Conditions"]),
    ("hypertension", ["Chronic Conditions", "Acute Care"]),
    ("asthma", ["Preventive Care", "Acute Care"]),
    ("heart", ["Chronic Conditions", "Procedures"]),
    ("cancer", ["Procedures", "Acute Care"])]

  /** `relevantCategories` for a condition filter. */
  function RelevantCategories(condition: string): seq<string> {
    match MatchingKey(ConditionMap, condition)
    case Some(j) => ConditionMap[j].1
    case None => []
  }

  /** A filter naming a key, in any case, selects that key's categories; an empty filter selects diabetes'. */
  lemma RelevantCategoriesExamples()
    ensures RelevantCategories("Diabetes") == ["Medications", "Chronic Conditions"]
    ensures RelevantCategories("") == ["Medications", "Chronic Conditions"]
  {
    assert Lower("Diabetes") == "diabetes";
    IncludesSelf("diabetes");
    IncludesEmpty("diabetes");
  }

  function Categories(data: seq<CostDriver>): set<string> {
    set i | 0 <= i < |data| :: data[i].category
  }

  /** +20 for every relevant category, -10 for every other category of the data. */
  function ConditionAdjustments(relevant: seq<string>, data: seq<CostDriver>): (adj: map<string, real>)
    ensures forall c :: c in relevant ==> AdjustmentFor(adj, c) == 20.0
    ensures forall c :: c in Categories(data) && c !in relevant ==> AdjustmentFor(adj, c) == -10.0
  {
    (map c | c in relevant :: 20.0) + (map c | c in Categories(data) && c !in relevant :: -10.0)
  }

  function AgeAdjustments(ageGroup: string): map<string, real> {
    if ageGroup == "0-18" then
      map["Chronic Conditions" := -7.0, "Preventive Care" := 8.0, "Procedures" := -3.0, "Acute Care" := 4.0, "Medications" := -2.0]
    else if ageGroup == "19-35" then
      map["Chronic Conditions" := -5.0, "Preventive Care" := 3.0, "Procedures" := -2.0, "Acute Care" := 2.0, "Medications" := 2.0]
    else if ageGroup == "36-50" then
      map["Chronic Conditions" := 2.0, "Preventive Care" := 1.0, "Procedures" := 1.0, "Acute Care" := -2.0, "Medications" := -2.0]
    else if ageGroup == "51-65" then
      map["Chronic Conditions" := 5.0, "Preventive Care" := -2.0, "Procedures" := 3.0, "Acute Care" := -3.0, "Medications" := -3.0]
    else if ageGroup == "65+" then
      map["Chronic Conditions" := 8.0, "Preventive Care" := -5.0, "Procedures" := 5.0, "Acute Care" := -5.0, "Medications" := -3.0]
    else map[]
  }

  function GenderAdjustments(gender: string): map<string, real> {
    if gender == "male" then map["Chronic Conditions" := 2.0, "Preventive Care" := -3.0, "Procedures" := 2.0]
    else if gender == "female" then map["Chronic Conditions" := -1.0, "Preventive Care" := 3.0, "Medications" := 1.0]
    else map[]
  }

  /** The condition stage runs only when the condition filter relates to a key of the condition map. */
  function AfterCondition(data: seq<CostDriver>, f: Filters): (r: seq<CostDriver>)
    ensures f.condition != All && |RelevantCategories(f.condition)| > 0 ==>
              r == AdjustCategoryPercentages(data, ConditionAdjustments(RelevantCategories(f.condition), data))
    ensures f.condition == All || RelevantCategories(f.condition) == [] ==> r == data
  {
    var relevant := if f.condition != All then RelevantCategories(f.condition) else [];
    if |relevant| > 0 then AdjustCategoryPercentages(data, ConditionAdjustments(relevant, data)) else data
  }

  /** The age stage runs for any active age group; an unlisted one still renormalises. */
  function AfterAge(xs: seq<CostDriver>, f: Filters): (r: seq<CostDriver>)
    ensures f.ageGroup != All ==> r == AdjustCategoryPercentages(xs, AgeAdjustments(f.ageGroup))
    ensures f.ageGroup == All ==> r == xs
  {
    if f.ageGroup != All then AdjustCategoryPercentages(xs, AgeAdjustments(f.ageGroup)) else xs
  }

  function AfterGender(xs: seq<CostDriver>, f: Filters): (r: seq<CostDriver>)
    ensures f.gender != All ==> r == AdjustCategoryPercentages(xs, GenderAdjustments(f.gender))
    ensures f.gender == All ==> r == xs
  {
    if f.gender != All then AdjustCategoryPercentages(xs, GenderAdjustments(f.gender)) else xs
  }

  /** The first driver of the original data with the given category (`data.find`). */
  function FirstWithCategory(data: seq<CostDriver>, category: string): (j: nat)
    requires category in Categories(data)
    ensures j < |data| && data[j].category == category
    ensures forall k :: 0 <= k < j ==> data[k].category != category
  {
    if data[0].category == category then 0
    else
      assert category in Categories(data[1..]) by {
        var i :| 0 <= i < |data| && data[i].category == category;
        assert data[1..][i - 1] == data[i];
      }
      1 + FirstWithCategory(data[1..], category)
  }

  /** `Math.round(original.cost * (share / original.share) * 100) / 100` */
  function RescaledCost(original: CostDriver, share: real): real
    requires original.percentage != 0.0
  {
    Round(original.cost * (share / original.percentage) * 100.0) as real / 100.0
  }

  predicate NonZeroShares(data: seq<CostDriver>) {
    forall j :: 0 <= j < |data| ==> data[j].percentage != 0.0
  }

  /** The last map: every cost rescaled from the first original driver of its category. */
  function WithRescaledCosts(adjusted: seq<CostDriver>, data: seq<CostDriver>): (r: seq<CostDriver>)
    requires NonZeroShares(data)
    requires forall i :: 0 <= i < |adjusted| ==> adjusted[i].category in Categories(data)
    ensures |r| == |adjusted|
    ensures forall i :: 0 <= i < |r| ==> r[i].category == adjusted[i].category && r[i].percentage == adjusted[i].percentage
  {
    seq(|adjusted|, i requires 0 <= i < |adjusted| =>
      adjusted[i].(cost := RescaledCost(data[FirstWithCategory(data, adjusted[i].category)], adjusted[i].percentage)))
  }

  /** A stage keeps length and categories. */
  predicate SameShape(xs: seq<CostDriver>, data: seq<CostDriver>) {
    |xs| == |data| && forall i :: 0 <= i < |xs| ==> xs[i].category == data[i].category
  }

  /** Whether any percentage stage runs. */
  predicate Reshares(f: Filters) {
    || (f.condition != All && |RelevantCategories(f.condition)| > 0)
    || f.ageGroup != All
    || f.gender != All
  }

  predicate WholePercentages(xs: seq<CostDriver>) {
    forall i :: 0 <= i < |xs| ==> 0.0 <= xs[i].percentage <= 100.0 && xs[i].percentage == xs[i].percentage.Floor as real
  }

  /** `fallbackData.dashboardData.costDriversData` */
  const FallbackCostDrivers: seq<CostDriver> := [
    CostDriver("Chronic Conditions", 5200.5, 28.0),
    CostDriver("Acute Care", 3800.25, 20.0),
    CostDriver("Preventive Care", 1500.75, 8.0),
    CostDriver("Medications", 4200.3, 23.0),
    CostDriver("Procedures", 3900.1, 21.0)]

  /** The fallback shares already total 100 and none is zero. */
  lemma FallbackCostDriversWellFormed()
    ensures SumPercentages(FallbackCostDrivers) == 100.0
    ensures NonZeroShares(FallbackCostDrivers)
  {
    var xs := FallbackCostDrivers;
    assert xs[1..][1..][1..][1..][1..] == [];
  }

  /**
   * getFilteredCostDriversData. Missing data gives the fallback table, no active
   * filter gives the data unchanged; otherwise the stages run in the order
   * condition, age group, gender, and the costs follow the shares.
   */
  function FilteredCostDrivers(source: Option<seq<CostDriver>>, f: Filters): (r: seq<CostDriver>)
    requires source.Some? ==> NonZeroShares(source.value)
    ensures source.None? ==> r == FallbackCostDrivers
    ensures source.Some? && ActiveCount(f) == 0 ==> r == source.value
    ensures source.Some? ==> SameShape(r, source.value)
    ensures source.Some? && ActiveCount(f) > 0 && Reshares(f) ==> WholePercentages(r)
    ensures source.Some? && ActiveCount(f) > 0 && !Reshares(f) ==>
              forall i :: 0 <= i < |r| ==> r[i].percentage == source.value[i].percentage
    ensures source.Some? && ActiveCount(f) > 0 ==>
              var shares := AfterGender(AfterAge(AfterCondition(source.value, f), f), f);
              forall i :: 0 <= i < |r| ==>
                && r[i].category in Categories(source.value)
                && r[i].percentage == shares[i].percentage
                && r[i].cost == RescaledCost(source.value[FirstWithCategory(source.value, r[i].category)], r[i].percentage)
  {
    if source.None? then FallbackCostDrivers
    else
      var data := source.value;
      if ActiveCount(f) == 0 then data
      else
        var a1 := AfterCondition(data, f);
        var a2 := AfterAge(a1, f);
        var a3 := AfterGender(a2, f);
        assert SameShape(a3, data);
        assert Reshares(f) ==> WholePercentages(a3);
        forall i | 0 <= i < |a3| ensures a3[i].category in Categories(data) {
          assert a3[i].category == data[i].category;
        }
        WithRescaledCosts(a3, data)
  }

  /**
   * With only filters that no stage reacts to, the shares are unchanged and each
   * cost is its category's original cost rounded to cents.
   */
  lemma OtherFiltersOnlyRoundCosts(data: seq<CostDriver>, f: Filters)
    requires NonZeroShares(data)
    requires forall i, j :: 0 <= i < j < |data| ==> data[i].category != data[j].category
    requires ActiveCount(f) > 0 && !Reshares(f)
    ensures forall i :: 0 <= i < |data| ==>
              FilteredCostDrivers(Some(data), f)[i] == data[i].(cost := Round(data[i].cost * 100.0) as real / 100.0)
  {
    assert AfterCondition(data, f) == data;
    assert AfterAge(data, f) == data;
    assert AfterGender(data, f) == data;
    forall i | 0 <= i < |data| ensures data[i].category in Categories(data) {
    }
    var r := WithRescaledCosts(data, data);
    assert FilteredCostDrivers(Some(data), f) == r;
    forall i | 0 <= i < |data|
      ensures r[i] == data[i].(cost := Round(data[i].cost * 100.0) as real / 100.0)
    {
      var j := FirstWithCategory(data, data[i].category);
      assert j == i;
      UnitShare(data[i].cost, data[i].percentage);
    }
  }

  lemma UnitShare(cost: real, p: real)
    requires p != 0.0
    ensures cost * (p / p) * 100.0 == cost * 100.0
  {
  }
}
