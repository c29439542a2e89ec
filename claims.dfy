/**
 * The claim record, the seven-key filter selection and the calendar values the
 * date-range filter works with.
 */
module Claims {
  import opened Wrappers

  /** The sentinel filter value meaning "this dimension is not constrained". */
  const All: string := "all"

  /**
   * One billed encounter. Every field may be absent (`undefined` in the source);
   * the date is kept as the text the record carries.
   */
  datatype Claim = Claim(
    date: Option<string>,
    procedure: Option<string>,
    patientId: Option<string>,
    baseCost: Option<real>,
    totalCost: Option<real>,
    coveragePercent: Option<real>,
    ageGroup: Option<string>,
    gender: Option<string>,
    race: Option<string>,
    condition: Option<string>,
    location: Option<string>)

  /** JavaScript truthiness of an optional string field: present and not "". */
  predicate Truthy(s: Option<string>) {
    s.Some? && s.value != ""
  }

  /** `claim.totalCost || 0`: a missing cost counts as 0. */
  function CostOf(c: Claim): real {
    c.totalCost.GetOr(0.0)
  }

  /** A null or undefined entry in the claims array is None. */
  predicate NoNulls(claims: seq<Option<Claim>>) {
    forall i :: 0 <= i < |claims| ==> claims[i].Some?
  }

  /** The filter dimensions, in the key order of the filter record. */
  datatype Dimension = AgeGroup | Gender | Race | Condition | Location | DateRange | CostRange

  const Keys: seq<Dimension> := [AgeGroup, Gender, Race, Condition, Location, DateRange, CostRange]

  lemma KeysComplete(d: Dimension)
    ensures d in Keys
  {
  }

  datatype Filters = Filters(
    ageGroup: string,
    gender: string,
    race: string,
    condition: string,
    location: string,
    dateRange: string,
    costRange: string)

  const NoFilters: Filters := Filters(All, All, All, All, All, All, All)

  function Get(f: Filters, d: Dimension): string {
    match d
    case AgeGroup => f.ageGroup
    case Gender => f.gender
    case Race => f.race
    case Condition => f.condition
    case Location => f.location
    case DateRange => f.dateRange
    case CostRange => f.costRange
  }

  predicate IsActive(f: Filters, d: Dimension) {
    Get(f, d) != All
  }

  /** The active dimensions among ks, in order. */
  function ActiveIn(ks: seq<Dimension>, f: Filters): (r: seq<Dimension>)
    ensures |r| <= |ks|
    ensures forall d :: d in r <==> d in ks && IsActive(f, d)
  {
    if ks == [] then []
    else (if IsActive(f, ks[0]) then [ks[0]] else []) + ActiveIn(ks[1..], f)
  }

  /** `Object.values(filters).filter(v => v !== "all")`, as the dimensions it keeps. */
  function ActiveDims(f: Filters): seq<Dimension> {
    ActiveIn(Keys, f)
  }

  /** `activeFilterCount` */
  function ActiveCount(f: Filters): nat {
    |ActiveDims(f)|
  }

  /** `Object.values(filters).every(v => v === "all")` */
  predicate AllUnset(f: Filters) {
    forall d :: Get(f, d) == All
  }

  lemma {:induction false} NoneActiveIn(ks: seq<Dimension>, f: Filters)
    requires forall d :: d in ks ==> !IsActive(f, d)
    ensures ActiveIn(ks, f) == []
  {
    if ks != [] {
      NoneActiveIn(ks[1..], f);
    }
  }

  /** Nothing is selected exactly when no filter is active. */
  lemma AllUnsetIffNoneActive(f: Filters)
    ensures AllUnset(f) <==> ActiveCount(f) == 0
  {
    if AllUnset(f) {
      NoneActiveIn(Keys, f);
    } else {
      var d :| Get(f, d) != All;
      KeysComplete(d);
      assert d in ActiveDims(f);
    }
  }

  /** The contribution of one key to the active list. */
  function ActiveSingle(f: Filters, d: Dimension): seq<Dimension> {
    if IsActive(f, d) then [d] else []
  }

  lemma ActiveInCons(d: Dimension, ks: seq<Dimension>, f: Filters)
    ensures ActiveIn([d] + ks, f) == ActiveSingle(f, d) + ActiveIn(ks, f)
  {
    assert ([d] + ks)[1..] == ks;
  }

  /** The active dimensions, key by key. */
  lemma ActiveDimsUnfold(f: Filters)
    ensures ActiveDims(f) ==
      ActiveSingle(f, AgeGroup) + (ActiveSingle(f, Gender) + (ActiveSingle(f, Race) + (ActiveSingle(f, Condition)
      + (ActiveSingle(f, Location) + (ActiveSingle(f, DateRange) + ActiveSingle(f, CostRange))))))
  {
    var k6: seq<Dimension> := [CostRange];
    var k5 := [DateRange] + k6;
    var k4 := [Location] + k5;
    var k3 := [Condition] + k4;
    var k2 := [Race] + k3;
    var k1 := [Gender] + k2;
    assert Keys == [AgeGroup] + k1;
    ActiveInCons(CostRange, [], f);
    assert [CostRange] + [] == k6;
    var a6 := ActiveIn(k6, f);
    assert a6 == ActiveSingle(f, CostRange);
    ActiveInCons(DateRange, k6, f);
    var a5 := ActiveIn(k5, f);
    assert a5 == ActiveSingle(f, DateRange) + a6;
    ActiveInCons(Location, k5, f);
    var a4 := ActiveIn(k4, f);
    assert a4 == ActiveSingle(f, Location) + a5;
    ActiveInCons(Condition, k4, f);
    var a3 := ActiveIn(k3, f);
    assert a3 == ActiveSingle(f, Condition) + a4;
    ActiveInCons(Race, k3, f);
    var a2 := ActiveIn(k2, f);
    assert a2 == ActiveSingle(f, Race) + a3;
    ActiveInCons(Gender, k2, f);
    var a1 := ActiveIn(k1, f);
    assert a1 == ActiveSingle(f, Gender) + a2;
    ActiveInCons(AgeGroup, k1, f);
  }

  /** Age group, gender and race selected and nothing else: those three are the active keys. */
  lemma FirstThreeActive(f: Filters)
    requires f.ageGroup != All && f.gender != All && f.race != All
    requires f.condition == All && f.location == All && f.dateRange == All && f.costRange == All
    ensures ActiveDims(f) == [AgeGroup, Gender, Race]
  {
    ActiveDimsUnfold(f);
    var none: seq<Dimension> := [];
    assert ActiveSingle(f, AgeGroup) == [AgeGroup] && ActiveSingle(f, Gender) == [Gender] && ActiveSingle(f, Race) == [Race];
    assert ActiveSingle(f, Condition) == none && ActiveSingle(f, Location) == none;
    assert ActiveSingle(f, DateRange) == none && ActiveSingle(f, CostRange) == none;
    ThreeJoined(none);
  }

  lemma ThreeJoined(none: seq<Dimension>)
    requires none == []
    ensures [AgeGroup] + ([Gender] + ([Race] + (none + (none + (none + none))))) == [AgeGroup, Gender, Race]
  {
  }

  /** Two filter records that agree on every key are equal. */
  lemma FiltersExt(f: Filters, g: Filters)
    requires forall d :: Get(f, d) == Get(g, d)
    ensures f == g
  {
    assert Get(f, AgeGroup) == Get(g, AgeGroup) && Get(f, Gender) == Get(g, Gender);
    assert Get(f, Race) == Get(g, Race) && Get(f, Condition) == Get(g, Condition);
    assert Get(f, Location) == Get(g, Location) && Get(f, DateRange) == Get(g, DateRange);
    assert Get(f, CostRange) == Get(g, CostRange);
  }

  /** A calendar day in local time; `month` is 0-based, as `getMonth()` returns it. */
  datatype CalendarDate = CalendarDate(year: int, month: int, day: int)

  predicate IsLeapYear(y: int) {
    y % 4 == 0 && (y % 100 != 0 || y % 400 == 0)
  }

  function DaysInMonth(y: int, m: int): int {
    if m == 1 then (if IsLeapYear(y) then 29 else 28)
    else if m == 3 || m == 5 || m == 8 || m == 10 then 30
    else 31
  }

  predicate ValidDate(d: CalendarDate) {
    0 <= d.month < 12 && 1 <= d.day <= DaysInMonth(d.year, d.month)
  }

  /** What `new Date(claim.date)` yields: an Invalid Date, or a day. */
  datatype ClaimDate = InvalidDate | OnDay(day: CalendarDate)

  /** The three rolling windows whose cutoffs are computed with setMonth / setFullYear. */
  datatype Window = ThreeMonths | SixMonths | OneYear

  /**
   * The clock the date filter reads. `now` is `new Date()`; `readDate` is
   * `new Date(text)`; `onOrAfterCutoff(w, d)` says whether the instant of day d is
   * at or after the cutoff of window w (the cutoff keeps the time of day of `now`).
   */
  datatype Clock = Clock(
    now: CalendarDate,
    readDate: string -> ClaimDate,
    onOrAfterCutoff: (Window, CalendarDate) -> bool)

  /**
   * Month and year of `lastMonth` after `lastMonth.setMonth(lastMonth.getMonth() - 1)`.
   * The day of the month is kept, so a day that the previous month does not have
   * overflows into the following month: on 31 March the result is 3 March.
   */
  function LastMonthOf(now: CalendarDate): (ym: (int, int)) {
    var (py, pm) := if now.month == 0 then (now.year - 1, 11) else (now.year, now.month - 1);
    if now.day > DaysInMonth(py, pm) then (now.year, now.month) else (py, pm)
  }

  /** On a day the previous month also has, `last_month` is the previous calendar month. */
  lemma LastMonthIsPreviousMonth(now: CalendarDate)
    requires ValidDate(now) && now.day <= 28
    ensures LastMonthOf(now) == if now.month == 0 then (now.year - 1, 11) else (now.year, now.month - 1)
    ensures LastMonthOf(now) != (now.year, now.month)
  {
  }

  /** On 31 March, `last_month` designates March itself. */
  lemma LastMonthOnMarch31(year: int)
    ensures LastMonthOf(CalendarDate(year, 2, 31)) == (year, 2)
  {
  }
}
