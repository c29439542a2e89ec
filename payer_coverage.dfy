/**
 * The payer coverage chart under filters: coverage percentages rounded, nudged
 * by per-payer adjustments for the condition and age-group filters, clamped to
 * [50, 100], jittered by up to two points and rounded again.
 */
module PayerCoverage {
  import opened Wrappers
  import opened Numbers
  import opened Claims
  import opened ConditionMatch

  /** One bar of the coverage chart: a payer and its coverage percentage. */
  datatype Coverage = Coverage(name: string, value: real)

  /** `fallbackData.dashboardData.payerCoverageData` */
  const FallbackCoverage: seq<Coverage> := [
    Coverage("Medicare", 85.0),
    Coverage("Medicaid", 78.0),
    Coverage("Blue Cross", 92.0),
    Coverage("Aetna", 88.0),
    Coverage("UnitedHealth", 90.0)]

  /** The per-condition adjustments, in key order (the condition is matched loosely). */
  const ConditionCoverageAdjustments: seq<(string, map<string, int>)> := [
    ("diabetes", map["Medicare" := 5, "Medicaid" := 3, "Blue Cross" := -2, "Aetna" := 1, "UnitedHealth" := 0]),
    ("hypertension", map["Medicare" := 2, "Medicaid" := 1, "Blue Cross" := 4, "Aetna" := 2, "UnitedHealth" := -1]),
    ("asthma", map["Medicare" := 1, "Medicaid" := 3, "Blue Cross" := 2, "Aetna" := 0, "UnitedHealth" := -1]),
    ("heart", map["Medicare" := 4, "Medicaid" := -1, "Blue Cross" := 2, "Aetna" := 1, "UnitedHealth" := 5]),
    ("cancer", map["Medicare" := 3, "Medicaid" := -2, "Blue Cross" := 1, "Aetna" := 4, "UnitedHealth" := 2])]

  /** The per-age-group adjustments, looked up by the exact filter value. */
  const AgeCoverageAdjustments: map<string, map<string, int>> := map[
    "0-18" := map["Medicare" := -4, "Medicaid" := 6, "Blue Cross" := 2, "Aetna" := 1, "UnitedHealth" := 0],
    "19-35" := map["Medicare" := -3, "Medicaid" := 2, "Blue Cross" := 3, "Aetna" := 2, "UnitedHealth" := 1],
    "36-50" := map["Medicare" := -1, "Medicaid" := 0, "Blue Cross" := 2, "Aetna" := 3, "UnitedHealth" := 1],
    "51-65" := map["Medicare" := 2, "Medicaid" := -1, "Blue Cross" := 1, "Aetna" := 2, "UnitedHealth" := 3],
    "65+" := map["Medicare" := 7, "Medicaid" := -3, "Blue Cross" := -1, "Aetna" := 0, "UnitedHealth" := 2]]

  /** `Math.min(100, Math.max(50, x))` */
  function Clamp(x: real): (r: real)
    ensures 50.0 <= r <= 100.0
    ensures 50.0 <= x <= 100.0 ==> r == x
  {
    Min(100.0, Max(50.0, x))
  }

  /** A coverage value as `Math.round` leaves it. */
  function RoundedValue(c: Coverage): Coverage {
    c.(value := Round(c.value) as real)
  }

  function RoundAll(data: seq<Coverage>): (r: seq<Coverage>)
    ensures |r| == |data|
    ensures forall i :: 0 <= i < |r| ==> r[i] == RoundedValue(data[i])
  {
    seq(|data|, i requires 0 <= i < |data| => RoundedValue(data[i]))
  }

  /** `adjustments[item.name] || 0` */
  function AdjustmentFor(adjustments: map<string, int>, name: string): int {
    if name in adjustments then adjustments[name] else 0
  }

  /** One payer's value moved by its adjustment and clamped. */
  function Adjusted(c: Coverage, adjustments: map<string, int>): Coverage {
    c.(value := Clamp(c.value + AdjustmentFor(adjustments, c.name) as real))
  }

  function AdjustAll(data: seq<Coverage>, adjustments: map<string, int>): (r: seq<Coverage>)
    ensures |r| == |data|
    ensures forall i :: 0 <= i < |r| ==> r[i] == Adjusted(data[i], adjustments)
  {
    seq(|data|, i requires 0 <= i < |data| => Adjusted(data[i], adjustments))
  }

  /** `Math.random()` draws lie in [0, 1). */
  predicate ValidDraws(draws: seq<real>, n: nat) {
    |draws| == n && forall i :: 0 <= i < n ==> 0.0 <= draws[i] < 1.0
  }

  /** The jittered and rounded value: `Math.round(clamp(value + (draw·4 − 2)))`. */
  function Jittered(c: Coverage, draw: real): Coverage {
    c.(value := Round(Clamp(c.value + (draw * 4.0 - 2.0))) as real)
  }

  function JitterAll(data: seq<Coverage>, draws: seq<real>): (r: seq<Coverage>)
    requires |draws| == |data|
    ensures |r| == |data|
    ensures forall i :: 0 <= i < |r| ==> r[i] == Jittered(data[i], draws[i])
  {
    seq(|data|, i requires 0 <= i < |data| => Jittered(data[i], draws[i]))
  }

  /** The condition table entry a condition filter selects, if any. */
  function ConditionEntry(f: Filters): Option<nat> {
    if f.condition != All then MatchingKey(ConditionCoverageAdjustments, f.condition) else None
  }

  /** The condition table a condition filter selects, if any. */
  function ConditionTable(f: Filters): Option<map<string, int>> {
    match ConditionEntry(f)
    case Some(j) => Some(ConditionCoverageAdjustments[j].1)
    case None => None
  }

  /** The age table, selected only by an age group listed in it. */
  function AgeTable(f: Filters): Option<map<string, int>> {
    if f.ageGroup != All && f.ageGroup in AgeCoverageAdjustments then Some(AgeCoverageAdjustments[f.ageGroup]) else None
  }

  /** A payer's adjustment in an optional table, 0 when there is no table. */
  function TableAdjustment(t: Option<map<string, int>>, name: string): int {
    if t.Some? then AdjustmentFor(t.value, name) else 0
  }

  predicate Whole(x: real) {
    x == x.Floor as real
  }

  /** One stage: adjust and clamp every value when a table is selected. */
  function Stage(xs: seq<Coverage>, t: Option<map<string, int>>): (r: seq<Coverage>)
    ensures |r| == |xs|
    ensures forall i :: 0 <= i < |r| ==> r[i].name == xs[i].name
    ensures forall i :: 0 <= i < |r| ==>
              r[i].value == if t.Some? then Clamp(xs[i].value + TableAdjustment(t, xs[i].name) as real) else xs[i].value
    ensures t.Some? ==> forall i :: 0 <= i < |r| ==> 50.0 <= r[i].value <= 100.0
    ensures forall i :: 0 <= i < |r| && Whole(xs[i].value) ==> Whole(r[i].value)
  {
    if t.Some? then
      var r := AdjustAll(xs, t.value);
      forall i | 0 <= i < |r| && Whole(xs[i].value) ensures Whole(r[i].value) {
        AdjustedWhole(xs[i], t.value);
      }
      r
    else xs
  }

  /** A whole value moved by a whole adjustment and clamped stays whole. */
  lemma AdjustedWhole(c: Coverage, adjustments: map<string, int>)
    requires Whole(c.value)
    ensures Whole(Adjusted(c, adjustments).value)
  {
    var n := c.value.Floor + AdjustmentFor(adjustments, c.name);
    assert c.value + AdjustmentFor(adjustments, c.name) as real == n as real;
    var m := if n < 50 then 50 else if n > 100 then 100 else n;
    assert Clamp(n as real) == m as real;
  }

  /**
   * The coverage values before the random nudge: each stage that runs adds the
   * payer's adjustment and clamps to [50, 100]. Whole values stay whole.
   */
  function AdjustedCoverage(rounded: seq<Coverage>, f: Filters): (r: seq<Coverage>)
    ensures |r| == |rounded|
    ensures forall i :: 0 <= i < |r| ==> r[i].name == rounded[i].name
    ensures forall i :: 0 <= i < |r| ==>
              var name := rounded[i].name;
              var byCondition :=
                if ConditionTable(f).Some? then Clamp(rounded[i].value + TableAdjustment(ConditionTable(f), name) as real)
                else rounded[i].value;
              r[i].value == if AgeTable(f).Some? then Clamp(byCondition + TableAdjustment(AgeTable(f), name) as real) else byCondition
    ensures ConditionTable(f).Some? || AgeTable(f).Some? ==> forall i :: 0 <= i < |r| ==> 50.0 <= r[i].value <= 100.0
    ensures forall i :: 0 <= i < |r| && Whole(rounded[i].value) ==> Whole(r[i].value)
  {
    Stage(Stage(rounded, ConditionTable(f)), AgeTable(f))
  }

  /**
   * getFilteredPayerCoverageData, with the i-th `Math.random()` draw supplied as
   * draws[i]. Payers and their order are kept. With no active filter the values
   * are the source values rounded; otherwise every value is a whole percentage
   * between 50 and 100.
   */
  function FilteredCoverage(source: Option<seq<Coverage>>, f: Filters, draws: seq<real>): (r: seq<Coverage>)
    requires ValidDraws(draws, |source.GetOr(FallbackCoverage)|)
    ensures |r| == |source.GetOr(FallbackCoverage)|
    ensures forall i :: 0 <= i < |r| ==> r[i].name == source.GetOr(FallbackCoverage)[i].name
    ensures ActiveCount(f) == 0 ==> r == RoundAll(source.GetOr(FallbackCoverage))
    ensures ActiveCount(f) > 0 ==>
              forall i :: 0 <= i < |r| ==> 50.0 <= r[i].value <= 100.0 && r[i].value == r[i].value.Floor as real
    ensures ActiveCount(f) > 0 ==>
              forall i :: 0 <= i < |r| ==>
                var adjusted := Clamp(AdjustedCoverage(RoundAll(source.GetOr(FallbackCoverage)), f)[i].value);
                adjusted - 2.0 <= r[i].value <= adjusted + 2.0
  {
    var rounded := RoundAll(source.GetOr(FallbackCoverage));
    if ActiveCount(f) == 0 then rounded
    else
      var adjusted := AdjustedCoverage(rounded, f);
      var r := JitterAll(adjusted, draws);
      forall i | 0 <= i < |r|
        ensures 50.0 <= r[i].value <= 100.0 && r[i].value == r[i].value.Floor as real
        ensures Clamp(adjusted[i].value) - 2.0 <= r[i].value <= Clamp(adjusted[i].value) + 2.0
      {
        JitteredWhole(adjusted[i], draws[i]);
        RoundInt(Round(rounded[i].value));
        JitterNearClamp(adjusted[i], draws[i]);
      }
      r
  }

  lemma JitteredWhole(c: Coverage, draw: real)
    ensures 50.0 <= Jittered(c, draw).value <= 100.0
    ensures Jittered(c, draw).value == Jittered(c, draw).value.Floor as real
  {
    var x := Clamp(c.value + (draw * 4.0 - 2.0));
    RoundBetween(x, 50, 100);
  }

  /**
   * The random nudge moves a whole value inside [50, 100] by at most two points,
   * so the filter adjustments stay visible through the jitter.
   */
  lemma JitterWithinTwoPoints(c: Coverage, draw: real)
    requires 0.0 <= draw < 1.0
    requires 50.0 <= c.value <= 100.0 && c.value == c.value.Floor as real
    ensures c.value - 2.0 <= Jittered(c, draw).value <= c.value + 2.0
  {
    var n := c.value.Floor;
    var x := Clamp(c.value + (draw * 4.0 - 2.0));
    assert c.value - 2.0 <= x <= c.value + 2.0;
    RoundBetween(x, n - 2, n + 2);
  }

  /** Clamping moves two values at most as far apart as they were. */
  lemma ClampCloser(x: real, v: real, d: real)
    requires v - d <= x <= v + d && d >= 0.0
    ensures Clamp(v) - d <= Clamp(x) <= Clamp(v) + d
  {
  }

  /**
   * For any whole value, the nudged value is within two points of the value
   * clamped to [50, 100].
   */
  lemma JitterNearClamp(c: Coverage, draw: real)
    requires 0.0 <= draw < 1.0
    requires Whole(c.value)
    ensures Clamp(c.value) - 2.0 <= Jittered(c, draw).value <= Clamp(c.value) + 2.0
  {
    var x := Clamp(c.value + (draw * 4.0 - 2.0));
    ClampCloser(c.value + (draw * 4.0 - 2.0), c.value, 2.0);
    var n := Clamp(c.value).Floor;
    assert Clamp(c.value) == n as real;
    RoundBetween(x, n - 2, n + 2);
  }

  /** A condition filter that matches no key and an unlisted age group leave the rounded values to the jitter alone. */
  lemma UnmatchedFiltersOnlyJitter(source: Option<seq<Coverage>>, f: Filters, draws: seq<real>)
    requires ValidDraws(draws, |source.GetOr(FallbackCoverage)|)
    requires ActiveCount(f) > 0
    requires ConditionEntry(f).None?
    requires f.ageGroup == All || f.ageGroup !in AgeCoverageAdjustments
    ensures FilteredCoverage(source, f, draws) == JitterAll(RoundAll(source.GetOr(FallbackCoverage)), draws)
  {
  }
}
