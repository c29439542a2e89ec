/**
 * The "top conditions" chart: the condition of every filtered claim is trimmed,
 * mapped to a canonical name and title-cased, counted into an insertion-ordered
 * dictionary, ranked by count and cut to five, with a fixed table shown when
 * there is too little data.
 */
module TopConditions {
  import opened Wrappers
  import opened Text
  import opened Sequences
  import opened Claims

  /** The first canonical name whose marker the lower-cased condition contains; otherwise the condition itself. */
  function CanonicalName(lowered: string): string {
    if Includes(lowered, "diabet") then "Diabetes"
    else if Includes(lowered, "hyper") then "Hypertension"
    else if Includes(lowered, "asthma") then "Asthma"
    else if Includes(lowered, "heart") || Includes(lowered, "cardiac") then "Heart Disease"
    else if Includes(lowered, "arth") then "Arthritis"
    else if Includes(lowered, "flu") || Includes(lowered, "influenza") then "Influenza"
    else if Includes(lowered, "prevent") then "Preventive Care"
    else if Includes(lowered, "allerg") then "Allergies"
    else if Includes(lowered, "cold") then "Common Cold"
    else if Includes(lowered, "back") then "Back Pain"
    else if Includes(lowered, "cancer") then "Cancer"
    else if Includes(lowered, "depress") then "Depression"
    else if Includes(lowered, "anxi") then "Anxiety"
    else lowered
  }

  /** `s.split(" ").map(capitalise).join(" ")` */
  function TitleCase(s: string): string {
    Join(CapitalizeAll(Split(s, ' ')), ' ')
  }

  /** The name a claim is counted under, or None when it has no non-blank condition (or is null). */
  function ConditionLabel(entry: Option<Claim>): Option<string> {
    if entry.Some? && Truthy(entry.value.condition) then
      var condition := Trim(entry.value.condition.value);
      if condition != "" then Some(TitleCase(CanonicalName(Lower(condition)))) else None
    else None
  }

  /** The labels of the claims that are counted, in claim order. */
  function LabelsOf(claims: seq<Option<Claim>>): (labels: seq<string>)
    ensures |labels| <= |claims|
  {
    if claims == [] then []
    else
      var init := LabelsOf(claims[..|claims| - 1]);
      match ConditionLabel(claims[|claims| - 1])
      case Some(tag) => init + [tag]
      case None => init
  }

  // ----- the insertion-ordered dictionary of counts -----

  type Counts = seq<(string, nat)>

  predicate DistinctKeys(counts: Counts) {
    forall i, j :: 0 <= i < j < |counts| ==> counts[i].0 != counts[j].0
  }

  /** The position of `name` among the keys. */
  function IndexOf(counts: Counts, name: string): (r: Option<nat>)
    ensures r.Some? ==> r.value < |counts| && counts[r.value].0 == name
    ensures r.None? ==> forall j :: 0 <= j < |counts| ==> counts[j].0 != name
  {
    if counts == [] then None
    else if counts[0].0 == name then Some(0)
    else match IndexOf(counts[1..], name)
      case Some(i) => Some(i + 1)
      case None => None
  }

  /** `conditionCounts[name] || 0` */
  function CountOf(counts: Counts, name: string): nat {
    match IndexOf(counts, name)
    case Some(i) => counts[i].1
    case None => 0
  }

  /** `conditionCounts[name] = (conditionCounts[name] || 0) + 1`: a new key goes last. */
  function Bump(counts: Counts, name: string): (r: Counts)
    ensures |r| == |counts| || r == counts + [(name, 1)]
  {
    match IndexOf(counts, name)
    case Some(i) => counts[i := (name, counts[i].1 + 1)]
    case None => counts + [(name, 1)]
  }

  /** With distinct keys, every key's position is the one IndexOf finds. */
  lemma IndexOfDistinct(counts: Counts, j: nat)
    requires DistinctKeys(counts) && j < |counts|
    ensures IndexOf(counts, counts[j].0) == Some(j)
  {
  }

  /** Bumping a name adds one to its count, leaves every other count alone and keeps the keys distinct. */
  lemma BumpCounts(counts: Counts, name: string)
    requires DistinctKeys(counts)
    ensures DistinctKeys(Bump(counts, name))
    ensures CountOf(Bump(counts, name), name) == CountOf(counts, name) + 1
    ensures forall other :: other != name ==> CountOf(Bump(counts, name), other) == CountOf(counts, other)
  {
    var r := Bump(counts, name);
    match IndexOf(counts, name)
    case Some(i) =>
      assert forall j :: 0 <= j < |r| ==> r[j].0 == counts[j].0;
      IndexOfDistinct(r, i);
      forall other | other != name ensures CountOf(r, other) == CountOf(counts, other) {
        match IndexOf(counts, other)
        case Some(k) => IndexOfDistinct(r, k);
        case None =>
      }
    case None =>
      IndexOfDistinct(r, |counts|);
      forall other | other != name ensures CountOf(r, other) == CountOf(counts, other) {
        match IndexOf(counts, other)
        case Some(k) => IndexOfDistinct(counts, k); IndexOfDistinct(r, k);
        case None =>
      }
  }

  /** The dictionary after counting the labels in order. */
  function CountLabels(labels: seq<string>): Counts {
    if labels == [] then []
    else Bump(CountLabels(labels[..|labels| - 1]), labels[|labels| - 1])
  }

  /** Every label is counted once under its own key, and the keys are distinct. */
  lemma {:induction false} CountLabelsCounts(labels: seq<string>)
    ensures DistinctKeys(CountLabels(labels))
    ensures forall name :: CountOf(CountLabels(labels), name) == multiset(labels)[name]
  {
    if labels != [] {
      var init := labels[..|labels| - 1];
      var last := labels[|labels| - 1];
      assert labels == init + [last];
      CountLabelsCounts(init);
      BumpCounts(CountLabels(init), last);
    }
  }

  /** The keys are exactly the labels. */
  lemma {:induction false} CountLabelsKeys(labels: seq<string>)
    ensures forall i :: 0 <= i < |CountLabels(labels)| ==> CountLabels(labels)[i].0 in labels
    ensures forall name :: name in labels ==> IndexOf(CountLabels(labels), name).Some?
  {
    if labels != [] {
      var init := labels[..|labels| - 1];
      var last := labels[|labels| - 1];
      assert labels == init + [last];
      CountLabelsKeys(init);
      var c := CountLabels(init);
      var r := Bump(c, last);
      match IndexOf(c, last)
      case Some(k) =>
        assert forall j :: 0 <= j < |r| ==> r[j].0 == c[j].0;
        forall name | name in labels ensures IndexOf(r, name).Some? {
          if name != last {
            var j := IndexOf(c, name).value;
            assert r[j].0 == name;
          } else {
            assert r[k].0 == name;
          }
        }
      case None =>
        forall name | name in labels ensures IndexOf(r, name).Some? {
          if name != last {
            var j := IndexOf(c, name).value;
            assert r[j].0 == name;
          } else {
            assert r[|c|].0 == name;
          }
        }
    }
  }

  /**
   * The counting loop over the filtered claims, adding one to the entry of each
   * claim's label and creating the entry at the end when the label is new.
   */
  method CountConditions(claims: seq<Option<Claim>>) returns (counts: Counts)
    ensures counts == CountLabels(LabelsOf(claims))
  {
    counts := [];
    for i := 0 to |claims|
      invariant counts == CountLabels(LabelsOf(claims[..i]))
    {
      assert claims[..i + 1][..i] == claims[..i];
      match ConditionLabel(claims[i])
      case Some(tag) =>
        assert LabelsOf(claims[..i + 1]) == LabelsOf(claims[..i]) + [tag];
        counts := Bump(counts, tag);
      case None =>
    }
    assert claims[..|claims|] == claims;
  }

  // ----- ranking -----

  datatype ConditionCount = ConditionCount(condition: string, count: nat)

  function CountKey(c: ConditionCount): real { c.count as real }

  /** `Object.entries(conditionCounts).map(...)` */
  function Entries(counts: Counts): (r: seq<ConditionCount>)
    ensures |r| == |counts|
    ensures forall i :: 0 <= i < |r| ==> r[i] == ConditionCount(counts[i].0, counts[i].1)
  {
    seq(|counts|, i requires 0 <= i < |counts| => ConditionCount(counts[i].0, counts[i].1))
  }

  /** The fixed table shown when fewer than 3 conditions or fewer than 5 claims remain. */
  const FallbackTopConditions: seq<ConditionCount> := [
    ConditionCount("Hypertension", 35),
    ConditionCount("Diabetes", 28),
    ConditionCount("Asthma", 21),
    ConditionCount("Arthritis", 18),
    ConditionCount("Allergies", 15)]

  /** The entries ranked by count (stable, so ties keep insertion order) and cut to five. */
  function Ranked(counts: Counts): (r: seq<ConditionCount>)
    ensures |r| <= 5 && |r| == if |counts| < 5 then |counts| else 5
    ensures NonIncreasing(r, CountKey)
    ensures multiset(r) <= multiset(Entries(counts))
  {
    TakeOfSortedIsTop(Entries(counts), 5, CountKey);
    Take(SortDesc(Entries(counts), CountKey), 5)
  }

  /** getTopConditionsChartData over the filtered claims. */
  function TopConditionsOf(filtered: seq<Option<Claim>>): (r: seq<ConditionCount>)
    ensures 3 <= |r| <= 5
    ensures NonIncreasing(r, CountKey) || r == FallbackTopConditions
  {
    var chart := Ranked(CountLabels(LabelsOf(filtered)));
    if |chart| < 3 || |filtered| < 5 then FallbackTopConditions else chart
  }

  /** The chart, computed with the counting loop. */
  method TopConditionsChart(filtered: seq<Option<Claim>>) returns (chart: seq<ConditionCount>)
    ensures chart == TopConditionsOf(filtered)
  {
    var counts := CountConditions(filtered);
    var ranked := Ranked(counts);
    if |ranked| < 3 || |filtered| < 5 {
      chart := FallbackTopConditions;
    } else {
      chart := ranked;
    }
  }

  /**
   * Unless the fixed table is shown, the chart is the ranking of the counted
   * labels.
   */
  lemma TopConditionsAreRanked(filtered: seq<Option<Claim>>)
    requires |filtered| >= 5
    requires |CountLabels(LabelsOf(filtered))| >= 3
    ensures TopConditionsOf(filtered) == Ranked(CountLabels(LabelsOf(filtered)))
  {
  }

  /** Every bar of the ranking is a label with its exact number of claims. */
  lemma RankedAreCounts(labels: seq<string>)
    ensures forall c :: c in Ranked(CountLabels(labels)) ==>
              c.condition in labels && c.count == multiset(labels)[c.condition]
  {
    var counts := CountLabels(labels);
    CountLabelsCounts(labels);
    CountLabelsKeys(labels);
    var entries := Entries(counts);
    forall c | c in Ranked(counts) ensures c.condition in labels && c.count == multiset(labels)[c.condition] {
      assert c in multiset(entries);
      var i :| 0 <= i < |entries| && entries[i] == c;
      IndexOfDistinct(counts, i);
    }
  }

  /** No label left out of the ranking has more claims than the last bar shown. */
  lemma RankedIsTop(labels: seq<string>)
    requires labels != []
    ensures forall name :: name in labels && (forall c :: c in Ranked(CountLabels(labels)) ==> c.condition != name) ==>
              multiset(labels)[name] <= Ranked(CountLabels(labels))[|Ranked(CountLabels(labels))| - 1].count
  {
    forall name | name in labels && (forall c :: c in Ranked(CountLabels(labels)) ==> c.condition != name)
      ensures multiset(labels)[name] <= Ranked(CountLabels(labels))[|Ranked(CountLabels(labels))| - 1].count
    {
      LeftOutLabel(labels, name);
    }
  }

  lemma LeftOutLabel(labels: seq<string>, name: string)
    requires name in labels
    requires forall c :: c in Ranked(CountLabels(labels)) ==> c.condition != name
    ensures |Ranked(CountLabels(labels))| > 0
    ensures multiset(labels)[name] <= Ranked(CountLabels(labels))[|Ranked(CountLabels(labels))| - 1].count
  {
    var counts := CountLabels(labels);
    CountLabelsCounts(labels);
    CountLabelsKeys(labels);
    var entries := Entries(counts);
    var r := Ranked(counts);
    var i := IndexOf(counts, name).value;
    var sorted := SortDesc(entries, CountKey);
    TakeOfSortedIsTop(entries, 5, CountKey);
    assert r[|r| - 1] == sorted[|r| - 1];
    var e := entries[i];
    assert e in multiset(entries);
    assert e !in multiset(r);
    assert e in multiset(entries) - multiset(r);
  }

  /** A word without spaces whose first letter is not lower-case is its own title case. */
  lemma TitleCaseOfWord(s: string)
    requires s != "" && ' ' !in s && !IsLowerAscii(s[0])
    ensures TitleCase(s) == s
  {
    SplitWithoutSeparator(s, ' ');
    assert CapitalizeAll([s]) == [Capitalize(s)];
    assert [s[0]] + s[1..] == s;
  }

  /** Spelling variants of a condition are counted under one canonical name. */
  lemma DiabetesVariantsCountTogether(c: Claim)
    requires c.condition.Some? && Includes(Lower(Trim(c.condition.value)), "diabet")
    ensures ConditionLabel(Some(c)) == Some("Diabetes")
  {
    var t := Trim(c.condition.value);
    IncludesLength(Lower(t), "diabet");
    assert t != "";
    TitleCaseOfWord("Diabetes");
  }
}
