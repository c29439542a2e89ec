/**
 * The claims filter engine: the AND predicate used with fewer than three active
 * filters, the OR predicate used with three or more, the cost-range bands, the
 * date-range buckets, and the free-text search over claims.
 */
module ClaimFilter {
  import opened Wrappers
  import opened Text
  import opened Sequences
  import opened Claims

  /** At this many active filters the predicate switches from AND to OR. */
  const OrThreshold: nat := 3

  predicate UsesOrLogic(f: Filters) {
    ActiveCount(f) >= OrThreshold
  }

  /** Condition filter: case-insensitive substring containment of the filter value. */
  predicate ConditionMatches(condition: string, filter: string) {
    Includes(Lower(condition), Lower(filter))
  }

  // ----- cost range -----

  /** The AND-mode cost test that returns false. */
  predicate CostRejects(range: string, cost: real) {
    || (range == "low" && cost > 1000.0)
    || (range == "medium" && (cost < 1000.0 || cost > 5000.0))
    || (range == "high" && cost < 5000.0)
  }

  /** The OR-mode cost test that sets matchesAnyFilter. */
  predicate CostMatches(range: string, cost: real) {
    || (range == "low" && cost <= 1000.0)
    || (range == "medium" && 1000.0 <= cost <= 5000.0)
    || (range == "high" && cost >= 5000.0)
  }

  predicate IsCostBand(range: string) {
    range == "low" || range == "medium" || range == "high"
  }

  /** The bands overlap at 1000 and 5000; the two modes test the same bands. */
  lemma CostBands(range: string, cost: real)
    ensures CostMatches("low", cost) <==> cost <= 1000.0
    ensures CostMatches("medium", cost) <==> 1000.0 <= cost <= 5000.0
    ensures CostMatches("high", cost) <==> cost >= 5000.0
    ensures CostRejects(range, cost) <==> IsCostBand(range) && !CostMatches(range, cost)
  {
  }

  // ----- date range -----

  /** The AND-mode date test that sets dateMatches = false. An Invalid Date compares unequal to every month. */
  predicate DateRejects(range: string, d: ClaimDate, clock: Clock) {
    if range == "current_month" then
      d.InvalidDate? || d.day.month != clock.now.month || d.day.year != clock.now.year
    else if range == "last_month" then
      var (y, m) := LastMonthOf(clock.now);
      d.InvalidDate? || d.day.month != m || d.day.year != y
    else if range == "last_3_months" then d.OnDay? && !clock.onOrAfterCutoff(ThreeMonths, d.day)
    else if range == "last_6_months" then d.OnDay? && !clock.onOrAfterCutoff(SixMonths, d.day)
    else if range == "last_year" then d.OnDay? && !clock.onOrAfterCutoff(OneYear, d.day)
    else false
  }

  /** The OR-mode date test that sets matchesAnyFilter. An Invalid Date matches no bucket. */
  predicate DateMatches(range: string, d: ClaimDate, clock: Clock) {
    if range == "current_month" then
      d.OnDay? && d.day.month == clock.now.month && d.day.year == clock.now.year
    else if range == "last_month" then
      var (y, m) := LastMonthOf(clock.now);
      d.OnDay? && d.day.month == m && d.day.year == y
    else if range == "last_3_months" then d.OnDay? && clock.onOrAfterCutoff(ThreeMonths, d.day)
    else if range == "last_6_months" then d.OnDay? && clock.onOrAfterCutoff(SixMonths, d.day)
    else if range == "last_year" then d.OnDay? && clock.onOrAfterCutoff(OneYear, d.day)
    else false
  }

  predicate IsDateBucket(range: string) {
    range in {"current_month", "last_month", "last_3_months", "last_6_months", "last_year"}
  }

  /**
   * On a readable date the AND test rejects exactly what the OR test does not
   * match; an Invalid Date fails the month buckets in both modes but slips
   * through the rolling windows in AND mode; an unknown bucket rejects nothing
   * and matches nothing.
   */
  lemma DateModes(range: string, d: ClaimDate, clock: Clock)
    ensures d.OnDay? && IsDateBucket(range) ==> (DateRejects(range, d, clock) <==> !DateMatches(range, d, clock))
    ensures d.InvalidDate? ==> !DateMatches(range, d, clock)
    ensures d.InvalidDate? ==> (DateRejects(range, d, clock) <==> range == "current_month" || range == "last_month")
    ensures !IsDateBucket(range) ==> !DateRejects(range, d, clock) && !DateMatches(range, d, clock)
  {
  }

  // ----- AND mode -----

  /** The AND branch as written: one early `return false` per active dimension, in key order. */
  predicate AndModeKeeps(c: Claim, f: Filters, clock: Clock) {
    if f.ageGroup != All && c.ageGroup != Some(f.ageGroup) then false
    else if f.gender != All && c.gender != Some(f.gender) then false
    else if f.race != All && c.race != Some(f.race) then false
    else if f.condition != All && Truthy(c.condition) && !ConditionMatches(c.condition.value, f.condition) then false
    else if f.location != All && c.location != Some(f.location) then false
    else if f.costRange != All && CostRejects(f.costRange, CostOf(c)) then false
    else if f.dateRange != All && Truthy(c.date) && DateRejects(f.dateRange, clock.readDate(c.date.value), clock) then false
    else true
  }

  /**
   * Whether the AND-mode check of dimension d lets claim c through. A claim
   * without a condition, or without a date, passes that check.
   */
  predicate Passes(d: Dimension, c: Claim, f: Filters, clock: Clock) {
    match d
    case AgeGroup => c.ageGroup == Some(f.ageGroup)
    case Gender => c.gender == Some(f.gender)
    case Race => c.race == Some(f.race)
    case Condition => !Truthy(c.condition) || ConditionMatches(c.condition.value, f.condition)
    case Location => c.location == Some(f.location)
    case CostRange => !CostRejects(f.costRange, CostOf(c))
    case DateRange => !Truthy(c.date) || !DateRejects(f.dateRange, clock.readDate(c.date.value), clock)
  }

  /** AND semantics: every active check passes. */
  predicate PassesAllActive(c: Claim, f: Filters, clock: Clock) {
    forall d :: IsActive(f, d) ==> Passes(d, c, f, clock)
  }

  lemma AndModeKeepsIff(c: Claim, f: Filters, clock: Clock)
    ensures AndModeKeeps(c, f, clock) <==> PassesAllActive(c, f, clock)
  {
    if !AndModeKeeps(c, f, clock) {
      if f.ageGroup != All && c.ageGroup != Some(f.ageGroup) {
        assert !Passes(AgeGroup, c, f, clock);
      } else if f.gender != All && c.gender != Some(f.gender) {
        assert !Passes(Gender, c, f, clock);
      } else if f.race != All && c.race != Some(f.race) {
        assert !Passes(Race, c, f, clock);
      } else if f.condition != All && Truthy(c.condition) && !ConditionMatches(c.condition.value, f.condition) {
        assert !Passes(Condition, c, f, clock);
      } else if f.location != All && c.location != Some(f.location) {
        assert !Passes(Location, c, f, clock);
      } else if f.costRange != All && CostRejects(f.costRange, CostOf(c)) {
        assert !Passes(CostRange, c, f, clock);
      } else {
        assert !Passes(DateRange, c, f, clock);
      }
    }
  }

  // ----- OR mode -----

  /**
   * Whether the OR-mode check of dimension d is counted in filterChecks: every
   * active dimension, except that condition and date count only when the claim
   * has that field.
   */
  predicate Evaluated(d: Dimension, c: Claim, f: Filters) {
    && IsActive(f, d)
    && (d == Condition ==> Truthy(c.condition))
    && (d == DateRange ==> Truthy(c.date))
  }

  /** Whether the OR-mode check of dimension d sets matchesAnyFilter. */
  predicate Matches(d: Dimension, c: Claim, f: Filters, clock: Clock) {
    match d
    case AgeGroup => c.ageGroup == Some(f.ageGroup)
    case Gender => c.gender == Some(f.gender)
    case Race => c.race == Some(f.race)
    case Condition => Truthy(c.condition) && ConditionMatches(c.condition.value, f.condition)
    case Location => c.location == Some(f.location)
    case CostRange => CostMatches(f.costRange, CostOf(c))
    case DateRange => Truthy(c.date) && DateMatches(f.dateRange, clock.readDate(c.date.value), clock)
  }

  function Indicator(b: bool): nat { if b then 1 else 0 }

  /** The final value of filterChecks. */
  function EvaluatedCount(c: Claim, f: Filters): nat {
    Indicator(Evaluated(AgeGroup, c, f)) + Indicator(Evaluated(Gender, c, f))
    + Indicator(Evaluated(Race, c, f)) + Indicator(Evaluated(Condition, c, f))
    + Indicator(Evaluated(Location, c, f)) + Indicator(Evaluated(DateRange, c, f))
    + Indicator(Evaluated(CostRange, c, f))
  }

  /** Check d was evaluated and matched. */
  predicate Hit(d: Dimension, c: Claim, f: Filters, clock: Clock) {
    Evaluated(d, c, f) && Matches(d, c, f, clock)
  }

  /** OR semantics: kept when no check was evaluated or some evaluated check matches. */
  predicate OrModeKeeps(c: Claim, f: Filters, clock: Clock) {
    EvaluatedCount(c, f) == 0 || exists d :: Hit(d, c, f, clock)
  }

  /** The disjunction the method accumulates in matchesAnyFilter, one term per key. */
  predicate AnyHit(c: Claim, f: Filters, clock: Clock) {
    || Hit(AgeGroup, c, f, clock) || Hit(Gender, c, f, clock) || Hit(Race, c, f, clock)
    || Hit(Condition, c, f, clock) || Hit(Location, c, f, clock) || Hit(CostRange, c, f, clock)
    || Hit(DateRange, c, f, clock)
  }

  lemma AnyHitIffExists(c: Claim, f: Filters, clock: Clock)
    ensures AnyHit(c, f, clock) <==> exists d :: Hit(d, c, f, clock)
  {
    if exists d :: Hit(d, c, f, clock) {
      var d :| Hit(d, c, f, clock);
      match d
      case AgeGroup =>
      case Gender =>
      case Race =>
      case Condition =>
      case Location =>
      case CostRange =>
      case DateRange =>
    }
  }

  /** The OR branch as written: filterChecks and matchesAnyFilter updated check by check. */
  method OrModeDecision(c: Claim, f: Filters, clock: Clock) returns (keep: bool, filterChecks: nat)
    ensures filterChecks == EvaluatedCount(c, f)
    ensures keep <==> OrModeKeeps(c, f, clock)
  {
    var matchesAnyFilter := false;
    filterChecks := 0;
    if f.ageGroup != All {
      filterChecks := filterChecks + 1;
      if c.ageGroup == Some(f.ageGroup) { matchesAnyFilter := true; }
    }
    assert filterChecks == Indicator(Evaluated(AgeGroup, c, f));
    assert matchesAnyFilter == Hit(AgeGroup, c, f, clock);
    if f.gender != All {
      filterChecks := filterChecks + 1;
      if c.gender == Some(f.gender) { matchesAnyFilter := true; }
    }
    assert filterChecks == Indicator(Evaluated(AgeGroup, c, f)) + Indicator(Evaluated(Gender, c, f));
    assert matchesAnyFilter == (Hit(AgeGroup, c, f, clock) || Hit(Gender, c, f, clock));
    if f.race != All {
      filterChecks := filterChecks + 1;
      if c.race == Some(f.race) { matchesAnyFilter := true; }
    }
    ghost var checks3 := filterChecks;
    ghost var hit3 := matchesAnyFilter;
    assert checks3 == Indicator(Evaluated(AgeGroup, c, f)) + Indicator(Evaluated(Gender, c, f))
      + Indicator(Evaluated(Race, c, f));
    assert hit3 == (Hit(AgeGroup, c, f, clock) || Hit(Gender, c, f, clock) || Hit(Race, c, f, clock));
    if f.condition != All && Truthy(c.condition) {
      filterChecks := filterChecks + 1;
      if ConditionMatches(c.condition.value, f.condition) { matchesAnyFilter := true; }
    }
    assert filterChecks == checks3 + Indicator(Evaluated(Condition, c, f));
    assert matchesAnyFilter == (hit3 || Hit(Condition, c, f, clock));
    ghost var checks4 := filterChecks;
    ghost var hit4 := matchesAnyFilter;
    if f.location != All {
      filterChecks := filterChecks + 1;
      if c.location == Some(f.location) { matchesAnyFilter := true; }
    }
    assert filterChecks == checks4 + Indicator(Evaluated(Location, c, f));
    assert matchesAnyFilter == (hit4 || Hit(Location, c, f, clock));
    ghost var checks5 := filterChecks;
    ghost var hit5 := matchesAnyFilter;
    if f.costRange != All {
      filterChecks := filterChecks + 1;
      if CostMatches(f.costRange, CostOf(c)) { matchesAnyFilter := true; }
    }
    assert filterChecks == checks5 + Indicator(Evaluated(CostRange, c, f));
    assert matchesAnyFilter == (hit5 || Hit(CostRange, c, f, clock));
    ghost var checks6 := filterChecks;
    ghost var hit6 := matchesAnyFilter;
    if f.dateRange != All && Truthy(c.date) {
      filterChecks := filterChecks + 1;
      if DateMatches(f.dateRange, clock.readDate(c.date.value), clock) { matchesAnyFilter := true; }
    }
    assert filterChecks == checks6 + Indicator(Evaluated(DateRange, c, f));
    assert matchesAnyFilter == (hit6 || Hit(DateRange, c, f, clock));
    assert matchesAnyFilter == AnyHit(c, f, clock);
    AnyHitIffExists(c, f, clock);
    keep := filterChecks == 0 || matchesAnyFilter;
  }

  lemma ActiveCountCons(d: Dimension, ks: seq<Dimension>, f: Filters)
    ensures |ActiveIn([d] + ks, f)| == Indicator(IsActive(f, d)) + |ActiveIn(ks, f)|
  {
    assert ([d] + ks)[1..] == ks;
  }

  /** activeFilterCount is the number of keys whose value is not "all". */
  lemma ActiveCountIsSum(f: Filters)
    ensures ActiveCount(f) ==
      Indicator(IsActive(f, AgeGroup)) + Indicator(IsActive(f, Gender)) + Indicator(IsActive(f, Race))
      + Indicator(IsActive(f, Condition)) + Indicator(IsActive(f, Location))
      + Indicator(IsActive(f, DateRange)) + Indicator(IsActive(f, CostRange))
  {
    var k6: seq<Dimension> := [CostRange];
    var k5 := [DateRange] + k6;
    var k4 := [Location] + k5;
    var k3 := [Condition] + k4;
    var k2 := [Race] + k3;
    var k1 := [Gender] + k2;
    assert Keys == [AgeGroup] + k1;
    ActiveCountCons(CostRange, [], f);
    assert [CostRange] + [] == k6;
    ActiveCountCons(DateRange, k6, f);
    ActiveCountCons(Location, k5, f);
    ActiveCountCons(Condition, k4, f);
    ActiveCountCons(Race, k3, f);
    ActiveCountCons(Gender, k2, f);
    ActiveCountCons(AgeGroup, k1, f);
  }

  /**
   * Only the condition and date checks can be skipped, so with three or more
   * active filters at least one check is always evaluated and the fail-open
   * branch `filterChecks === 0` is never taken.
   */
  lemma OrModeAlwaysEvaluates(c: Claim, f: Filters)
    requires UsesOrLogic(f)
    ensures EvaluatedCount(c, f) >= ActiveCount(f) - 2 >= 1
  {
    ActiveCountIsSum(f);
  }

  /** With three or more active filters a claim is kept exactly when some evaluated check matches. */
  lemma OrModeKeepsIff(c: Claim, f: Filters, clock: Clock)
    requires UsesOrLogic(f)
    ensures OrModeKeeps(c, f, clock) <==> exists d :: Hit(d, c, f, clock)
  {
    OrModeAlwaysEvaluates(c, f);
  }

  // ----- the filter -----

  /** The callback given to `claimsData.filter`: null entries are dropped. */
  predicate Keeps(entry: Option<Claim>, f: Filters, clock: Clock) {
    && entry.Some?
    && (if UsesOrLogic(f) then OrModeKeeps(entry.value, f, clock) else AndModeKeeps(entry.value, f, clock))
  }

  /**
   * getFilteredClaimsDataWithFilters (and its copy getFilteredClaimsData): the
   * input itself when no filter is set, otherwise the entries the mode's
   * predicate keeps, in their original order.
   */
  function FilterClaims(claims: seq<Option<Claim>>, f: Filters, clock: Clock): (r: seq<Option<Claim>>)
    ensures AllUnset(f) ==> r == claims
    ensures !AllUnset(f) ==> NoNulls(r)
    ensures !AllUnset(f) ==> forall x :: x in r <==> x in claims && Keeps(x, f, clock)
    ensures !AllUnset(f) ==> forall x :: multiset(r)[x] == if Keeps(x, f, clock) then multiset(claims)[x] else 0
    ensures IsSubsequence(r, claims)
  {
    if AllUnset(f) then
      SubsequenceOfSelf(claims);
      claims
    else
      var r := Keep(claims, x => Keeps(x, f, clock));
      assert forall i :: 0 <= i < |r| ==> r[i] in r;
      r
  }

  /** With one or two active filters, a claim is kept iff every active check passes. */
  lemma FilterAndMode(claims: seq<Option<Claim>>, f: Filters, clock: Clock)
    requires 1 <= ActiveCount(f) < OrThreshold
    ensures forall c :: Some(c) in FilterClaims(claims, f, clock) <==> Some(c) in claims && PassesAllActive(c, f, clock)
  {
    AllUnsetIffNoneActive(f);
    forall c | true ensures Keeps(Some(c), f, clock) <==> PassesAllActive(c, f, clock) {
      AndModeKeepsIff(c, f, clock);
    }
  }

  /** With three or more active filters, a claim is kept iff some evaluated check matches. */
  lemma FilterOrMode(claims: seq<Option<Claim>>, f: Filters, clock: Clock)
    requires UsesOrLogic(f)
    ensures forall c :: Some(c) in FilterClaims(claims, f, clock) <==>
              Some(c) in claims && exists d :: Hit(d, c, f, clock)
  {
    AllUnsetIffNoneActive(f);
    forall c | true ensures Keeps(Some(c), f, clock) <==> exists d :: Hit(d, c, f, clock) {
      OrModeKeepsIff(c, f, clock);
    }
  }

  /** In AND mode a claim with no condition and no date is judged on the other five dimensions only. */
  lemma AndModeIgnoresMissingFields(c: Claim, f: Filters, clock: Clock)
    requires !Truthy(c.condition) && !Truthy(c.date)
    ensures AndModeKeeps(c, f, clock) == AndModeKeeps(c, f.(condition := All, dateRange := All), clock)
  {
  }

  /**
   * A claim dated the first of the current month is kept by the current_month
   * bucket; the last_month bucket keeps it too exactly when `setMonth`'s
   * day overflow lands `lastMonth` back in the current month.
   */
  lemma FirstOfMonthBuckets(c: Claim, clock: Clock)
    requires Truthy(c.date)
    requires clock.readDate(c.date.value) == OnDay(CalendarDate(clock.now.year, clock.now.month, 1))
    ensures AndModeKeeps(c, NoFilters.(dateRange := "current_month"), clock)
    ensures AndModeKeeps(c, NoFilters.(dateRange := "last_month"), clock) <==>
              LastMonthOf(clock.now) == (clock.now.year, clock.now.month)
  {
  }

  // ----- free-text search -----

  function StringField(s: Option<string>): seq<string> {
    if Truthy(s) then [s.value] else []
  }

  function NumberField(n: Option<real>, numText: real -> string): seq<string> {
    if n.Some? && n.value != 0.0 then [numText(n.value)] else []
  }

  /**
   * The truthy values of a claim rendered by `toString()`; `numText` is the
   * number-to-string conversion. Absent fields, "" and 0 are falsy and skipped.
   */
  function SearchableTexts(c: Claim, numText: real -> string): seq<string> {
    StringField(c.date) + StringField(c.procedure) + StringField(c.patientId)
    + NumberField(c.baseCost, numText) + NumberField(c.totalCost, numText)
    + NumberField(c.coveragePercent, numText) + StringField(c.ageGroup)
    + StringField(c.gender) + StringField(c.race) + StringField(c.condition)
    + StringField(c.location)
  }

  predicate MatchesSearch(c: Claim, term: string, numText: real -> string) {
    var texts := SearchableTexts(c, numText);
    exists k :: 0 <= k < |texts| && Includes(Lower(texts[k]), term)
  }

  predicate IsBlank(s: string) {
    Trim(s) == ""
  }

  /**
   * getSearchFilteredClaimsData: a blank term returns the claims unchanged;
   * otherwise the non-null claims one of whose values contains the trimmed,
   * lower-cased term, in their original order.
   */
  function SearchClaims(claims: seq<Option<Claim>>, searchTerm: string, numText: real -> string): (r: seq<Option<Claim>>)
    ensures IsBlank(searchTerm) ==> r == claims
    ensures !IsBlank(searchTerm) ==>
              forall x :: x in r <==> x in claims && x.Some? && MatchesSearch(x.value, Trim(Lower(searchTerm)), numText)
    ensures !IsBlank(searchTerm) ==>
              forall x :: multiset(r)[x] ==
                if x.Some? && MatchesSearch(x.value, Trim(Lower(searchTerm)), numText) then multiset(claims)[x] else 0
    ensures IsSubsequence(r, claims)
  {
    if IsBlank(searchTerm) then
      SubsequenceOfSelf(claims);
      claims
    else
      var term := Trim(Lower(searchTerm));
      Keep(claims, (x: Option<Claim>) => x.Some? && MatchesSearch(x.value, term, numText))
  }

  /** Lower-casing neither creates nor removes whitespace. */
  lemma LowerKeepsWhitespace(s: string)
    ensures forall i :: 0 <= i < |s| ==> (IsJsWhitespace(Lower(s)[i]) <==> IsJsWhitespace(s[i]))
  {
  }

  lemma {:induction false} BlankIffAllWhitespace(s: string)
    ensures IsBlank(s) <==> forall i :: 0 <= i < |s| ==> IsJsWhitespace(s[i])
  {
    if forall i :: 0 <= i < |s| ==> IsJsWhitespace(s[i]) {
      TrimAllWhitespace(s);
    } else {
      var i :| 0 <= i < |s| && !IsJsWhitespace(s[i]);
      var t := TrimStart(s);
      assert |s| - |t| <= i;
      assert t[i - (|s| - |t|)] == s[i];
      assert TrimEnd(t) != [];
    }
  }

  /** Searching is case-insensitive in the term: a lower-cased term finds the same claims. */
  lemma SearchIgnoresTermCase(claims: seq<Option<Claim>>, searchTerm: string, numText: real -> string)
    ensures SearchClaims(claims, Lower(searchTerm), numText) == SearchClaims(claims, searchTerm, numText)
  {
    LowerKeepsWhitespace(searchTerm);
    BlankIffAllWhitespace(searchTerm);
    BlankIffAllWhitespace(Lower(searchTerm));
    assert IsBlank(Lower(searchTerm)) == IsBlank(searchTerm);
    LowerIdempotent(searchTerm);
  }
}
