/**
 * The loose condition lookup several charts share: the filter value is
 * lower-cased and the first key of an ordered table that contains it, or that it
 * contains, is chosen (`for (const key in table)` with a `break`).
 */
module ConditionMatch {
  import opened Wrappers
  import opened Text

  /** `key.includes(normalized) || normalized.includes(key)` */
  predicate Related(key: string, normalized: string) {
    Includes(key, normalized) || Includes(normalized, key)
  }

  /** The index of the first entry at or after `from` whose key is related to `normalized`. */
  function FirstRelated<V>(table: seq<(string, V)>, normalized: string, from: nat): (r: Option<nat>)
    requires from <= |table|
    ensures r.Some? ==> from <= r.value < |table| && Related(table[r.value].0, normalized)
    ensures r.Some? ==> forall j :: from <= j < r.value ==> !Related(table[j].0, normalized)
    ensures r.None? ==> forall j :: from <= j < |table| ==> !Related(table[j].0, normalized)
    decreases |table| - from
  {
    if from == |table| then None
    else if Related(table[from].0, normalized) then Some(from)
    else FirstRelated(table, normalized, from + 1)
  }

  /** The entry a condition filter selects: the first key related to its lower-cased value. */
  function MatchingKey<V>(table: seq<(string, V)>, condition: string): (r: Option<nat>)
    ensures r.Some? ==> r.value < |table| && Related(table[r.value].0, Lower(condition))
    ensures r.Some? ==> forall j :: 0 <= j < r.value ==> !Related(table[j].0, Lower(condition))
    ensures r.None? ==> forall j :: 0 <= j < |table| ==> !Related(table[j].0, Lower(condition))
  {
    FirstRelated(table, Lower(condition), 0)
  }

  /** The filter's case does not matter. */
  lemma MatchingKeyIgnoresCase<V>(table: seq<(string, V)>, condition: string)
    ensures MatchingKey(table, Lower(condition)) == MatchingKey(table, condition)
  {
    LowerIdempotent(condition);
  }

  /** An empty filter value is contained in every key, so it selects the first entry. */
  lemma EmptyConditionMatchesFirst<V>(table: seq<(string, V)>)
    requires |table| > 0
    ensures MatchingKey(table, "") == Some(0)
  {
    IncludesEmpty(table[0].0);
    assert Lower("") == "";
  }
}
