/**
 * The cost-prediction calculator: a base cost multiplied by one factor per
 * parameter, a ±15% interval, a twelve-month profile whose month-to-month
 * variation comes from the random source (supplied here as draws), and a risk
 * score.
 */
module Prediction {
  import opened Wrappers
  import opened Numbers

  /**
   * The calculator's inputs. `age` is what `parseInt` makes of the age field:
   * None stands for NaN, for which every comparison is false.
   */
  datatype PredictionParams = PredictionParams(
    age: Option<int>,
    gender: string,
    condition: string,
    previousClaims: string,
    region: string)

  datatype MonthlyPrediction = MonthlyPrediction(month: nat, cost: real, cumulativeCost: real)

  datatype PredictionResult = PredictionResult(
    predictedAnnualCost: real,
    lowerBound: real,
    upperBound: real,
    averageCostForAge: real,
    averageCostForCondition: real,
    monthlyPredictions: seq<MonthlyPrediction>,
    confidenceLevel: string,
    riskScore: int)

  const BaseCost: real := 5000.0

  const AgeFactors: map<string, real> := map["0-18" := 0.7, "19-35" := 0.9, "36-50" := 1.2, "51-65" := 1.5, "65+" := 1.8]

  const GenderFactors: map<string, real> := map["male" := 1.1, "female" := 1.0, "other" := 1.05]

  const ConditionFactors: map<string, real> := map[
    "diabetes" := 1.8, "hypertension" := 1.4, "asthma" := 1.3, "heart" := 2.5, "cancer" := 3.2,
    "arthritis" := 1.6, "depression" := 1.2, "anxiety" := 1.1, "obesity" := 1.5, "copd" := 2.0]

  const PreviousClaimsFactors: map<string, real> := map["0" := 0.9, "1" := 1.0, "2" := 1.1, "3" := 1.2, "4+" := 1.4]

  const RegionFactors: map<string, real> := map["northeast" := 1.2, "midwest" := 1.0, "south" := 0.95, "west" := 1.3]

  /** `table[key] || fallback`; no entry of these tables is 0, so only a missing key falls back. */
  function FactorOr(table: map<string, real>, key: string, fallback: real): real {
    if key in table then table[key] else fallback
  }

  /** The age bucket: at most 18, 35, 50, 65, and everything else (including NaN) is "65+". */
  function AgeGroupOf(age: Option<int>): string {
    if age.Some? && age.value <= 18 then "0-18"
    else if age.Some? && age.value <= 35 then "19-35"
    else if age.Some? && age.value <= 50 then "36-50"
    else if age.Some? && age.value <= 65 then "51-65"
    else "65+"
  }

  function AgeFactor(p: PredictionParams): real { FactorOr(AgeFactors, AgeGroupOf(p.age), 1.0) }

  function GenderFactor(p: PredictionParams): real { FactorOr(GenderFactors, p.gender, 1.0) }

  /** An unknown condition is priced at 1.2, not 1. */
  function ConditionFactor(p: PredictionParams): real { FactorOr(ConditionFactors, p.condition, 1.2) }

  function PreviousClaimsFactor(p: PredictionParams): real { FactorOr(PreviousClaimsFactors, p.previousClaims, 1.0) }

  function RegionFactor(p: PredictionParams): real { FactorOr(RegionFactors, p.region, 1.0) }

  /** The predicted annual cost: the base cost times the five factors. */
  function PredictedCost(p: PredictionParams): real {
    BaseCost * AgeFactor(p) * GenderFactor(p) * ConditionFactor(p) * PreviousClaimsFactor(p) * RegionFactor(p)
  }

  /** `Math.round(conditionFactor * previousClaimsFactor * 25)` */
  function RiskScore(p: PredictionParams): int {
    Round(ConditionFactor(p) * PreviousClaimsFactor(p) * 25.0)
  }

  /** `Math.random()` draws lie in [0, 1). */
  predicate ValidDraws(draws: seq<real>) {
    |draws| == 12 && forall i :: 0 <= i < 12 ==> 0.0 <= draws[i] < 1.0
  }

  /** Month m (1-based) of the profile: the monthly base varied by the draw, and m twelfths of the annual cost so far. */
  function MonthOf(monthlyBase: real, m: nat, draw: real): MonthlyPrediction {
    MonthlyPrediction(m, monthlyBase * (0.9 + draw * 0.2), monthlyBase * (m as real))
  }

  /**
   * generateCostPrediction, with the i-th `Math.random()` draw of the monthly
   * loop supplied as draws[i].
   */
  method GenerateCostPrediction(p: PredictionParams, draws: seq<real>) returns (result: PredictionResult)
    requires ValidDraws(draws)
    ensures result.predictedAnnualCost == PredictedCost(p)
    ensures result.lowerBound == PredictedCost(p) * 0.85 && result.upperBound == PredictedCost(p) * 1.15
    ensures result.averageCostForAge == BaseCost * AgeFactor(p)
    ensures result.averageCostForCondition == BaseCost * ConditionFactor(p)
    ensures |result.monthlyPredictions| == 12
    ensures forall i :: 0 <= i < 12 ==> result.monthlyPredictions[i] == MonthOf(PredictedCost(p) / 12.0, i + 1, draws[i])
    ensures result.confidenceLevel == "85%" && result.riskScore == RiskScore(p)
  {
    var predictedCost := PredictedCost(p);
    var monthlyBase := predictedCost / 12.0;
    var monthlyPredictions: seq<MonthlyPrediction> := [];
    for i := 1 to 13
      invariant |monthlyPredictions| == i - 1
      invariant forall k :: 0 <= k < i - 1 ==> monthlyPredictions[k] == MonthOf(monthlyBase, k + 1, draws[k])
    {
      monthlyPredictions := monthlyPredictions + [MonthOf(monthlyBase, i, draws[i - 1])];
    }
    result := PredictionResult(
      predictedCost, predictedCost * 0.85, predictedCost * 1.15,
      BaseCost * AgeFactor(p), BaseCost * ConditionFactor(p),
      monthlyPredictions,
      "85%",
      RiskScore(p));
  }

  /** Every factor is positive, so the prediction is. */
  lemma PredictedCostPositive(p: PredictionParams)
    ensures 0.7 <= AgeFactor(p) <= 1.8 && 1.0 <= GenderFactor(p) <= 1.1
    ensures 1.1 <= ConditionFactor(p) <= 3.2 && 0.9 <= PreviousClaimsFactor(p) <= 1.4
    ensures 0.95 <= RegionFactor(p) <= 1.3
    ensures PredictedCost(p) > 0.0
  {
    AgeFactorRange(p);
    GenderFactorRange(p);
    ConditionFactorRange(p);
    PreviousClaimsFactorRange(p);
    RegionFactorRange(p);
    FiveFactorsPositive(AgeFactor(p), GenderFactor(p), ConditionFactor(p), PreviousClaimsFactor(p), RegionFactor(p));
  }

  lemma FiveFactorsPositive(a: real, g: real, c: real, pc: real, r: real)
    requires a > 0.0 && g > 0.0 && c > 0.0 && pc > 0.0 && r > 0.0
    ensures BaseCost * a * g * c * pc * r > 0.0
  {
    PositiveProduct(BaseCost, a);
    PositiveProduct(BaseCost * a, g);
    PositiveProduct(BaseCost * a * g, c);
    PositiveProduct(BaseCost * a * g * c, pc);
    PositiveProduct(BaseCost * a * g * c * pc, r);
  }

  lemma AgeFactorRange(p: PredictionParams)
    ensures 0.7 <= AgeFactor(p) <= 1.8
  {
    var g := AgeGroupOf(p.age);
    assert g == "0-18" || g == "19-35" || g == "36-50" || g == "51-65" || g == "65+";
  }

  lemma GenderFactorRange(p: PredictionParams)
    ensures 1.0 <= GenderFactor(p) <= 1.1
  {
    if p.gender in GenderFactors {
      assert p.gender == "male" || p.gender == "female" || p.gender == "other";
    }
  }

  lemma ConditionFactorRange(p: PredictionParams)
    ensures 1.1 <= ConditionFactor(p) <= 3.2
  {
    if p.condition in ConditionFactors {
      var c := p.condition;
      assert c == "diabetes" || c == "hypertension" || c == "asthma" || c == "heart" || c == "cancer" ||
             c == "arthritis" || c == "depression" || c == "anxiety" || c == "obesity" || c == "copd";
    }
  }

  lemma PreviousClaimsFactorRange(p: PredictionParams)
    ensures 0.9 <= PreviousClaimsFactor(p) <= 1.4
  {
    if p.previousClaims in PreviousClaimsFactors {
      var n := p.previousClaims;
      assert n == "0" || n == "1" || n == "2" || n == "3" || n == "4+";
    }
  }

  lemma RegionFactorRange(p: PredictionParams)
    ensures 0.95 <= RegionFactor(p) <= 1.3
  {
    if p.region in RegionFactors {
      var r := p.region;
      assert r == "northeast" || r == "midwest" || r == "south" || r == "west";
    }
  }

  lemma PositiveProduct(x: real, y: real)
    requires x > 0.0 && y > 0.0
    ensures x * y > 0.0
  {
  }

  /** The interval brackets the prediction: lower = 0.85·p ≤ p ≤ 1.15·p = upper. */
  lemma IntervalBracketsPrediction(p: PredictionParams)
    ensures PredictedCost(p) * 0.85 <= PredictedCost(p) <= PredictedCost(p) * 1.15
  {
    PredictedCostPositive(p);
  }

  /** The cumulative cost grows by one twelfth per month and reaches the annual prediction in month 12. */
  lemma CumulativeReachesAnnual(annual: real, draws: seq<real>)
    requires ValidDraws(draws)
    ensures MonthOf(annual / 12.0, 12, draws[11]).cumulativeCost == annual
    ensures forall i :: 0 <= i < 11 ==>
              MonthOf(annual / 12.0, i + 2, draws[i + 1]).cumulativeCost - MonthOf(annual / 12.0, i + 1, draws[i]).cumulativeCost == annual / 12.0
  {
  }

  /** Each month's cost lies within ±10% of the monthly base (for a non-negative prediction). */
  lemma MonthlyVariationBounds(monthlyBase: real, m: nat, draw: real)
    requires monthlyBase >= 0.0 && 0.0 <= draw < 1.0
    ensures monthlyBase * 0.9 <= MonthOf(monthlyBase, m, draw).cost <= monthlyBase * 1.1
  {
    var v := 0.9 + draw * 0.2;
    assert 0.9 <= v <= 1.1;
    assert monthlyBase * v - monthlyBase * 0.9 == monthlyBase * (v - 0.9);
    assert monthlyBase * 1.1 - monthlyBase * v == monthlyBase * (1.1 - v);
  }

  /** The age buckets, as upper bounds on the parsed age. */
  lemma AgeBuckets(age: int)
    ensures AgeGroupOf(Some(age)) == "0-18" <==> age <= 18
    ensures AgeGroupOf(Some(age)) == "19-35" <==> 18 < age <= 35
    ensures AgeGroupOf(Some(age)) == "36-50" <==> 35 < age <= 50
    ensures AgeGroupOf(Some(age)) == "51-65" <==> 50 < age <= 65
    ensures AgeGroupOf(Some(age)) == "65+" <==> 65 < age
  {
  }

  /** The risk score lies between round(1.1·0.9·25) = 25 and round(3.2·1.4·25) = 112. */
  lemma RiskScoreRange(p: PredictionParams)
    ensures 25 <= RiskScore(p) <= 112
  {
    PredictedCostPositive(p);
    var c, pc := ConditionFactor(p), PreviousClaimsFactor(p);
    assert c * pc * 25.0 == 25.0 * (c * pc);
    assert 0.99 <= c * pc <= 4.48 by {
      assert c * pc - 1.1 * pc == (c - 1.1) * pc;
      assert 3.2 * pc - c * pc == (3.2 - c) * pc;
    }
    RoundBetween(c * pc * 25.0, 24, 112);
    RoundMonotone(24.75, c * pc * 25.0);
    assert Round(24.75) == 25;
  }
}
