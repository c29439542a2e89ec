/**
 * City-name formatting for the city comparison chart: slugs such as
 * `san_francisco` become display names such as `San Francisco`.
 */
module CityNames {
  import opened Wrappers
  import opened Text

  /**
   * The character the formatter writes at position i of slug t: an underscore
   * becomes a space, the first character of every underscore-separated segment is
   * upper-cased, every other character is copied.
   */
  function CityChar(t: string, i: int): char
    requires 0 <= i < |t|
  {
    if t[i] == '_' then ' '
    else if i == 0 || t[i - 1] == '_' then UpperChar(t[i])
    else t[i]
  }

  /** formatCityName: a missing or empty name gives ""; otherwise split on '_', capitalise, join with ' '. */
  function FormatCityName(name: Option<string>): (r: string)
    ensures name.None? ==> r == ""
    ensures name.Some? ==> |r| == |name.value|
    ensures name.Some? ==> forall i :: 0 <= i < |r| ==> r[i] == CityChar(name.value, i)
  {
    if name.None? || name.value == "" then ""
    else
      var parts := Split(name.value, '_');
      JoinSplit(name.value, '_');
      JoinCapitalizedPointwise(parts);
      Join(CapitalizeAll(parts), ' ')
  }

  /** Joining capitalised segments with ' ' agrees, character by character, with CityChar on the '_'-joined slug. */
  lemma {:induction false} JoinCapitalizedPointwise(parts: seq<string>)
    requires |parts| >= 1
    requires forall k :: 0 <= k < |parts| ==> '_' !in parts[k]
    ensures |Join(CapitalizeAll(parts), ' ')| == |Join(parts, '_')|
    ensures forall i :: 0 <= i < |Join(parts, '_')| ==>
              Join(CapitalizeAll(parts), ' ')[i] == CityChar(Join(parts, '_'), i)
  {
    var t := Join(parts, '_');
    var r := Join(CapitalizeAll(parts), ' ');
    var p0 := parts[0];
    if |parts| == 1 {
      assert t == p0 && r == Capitalize(p0);
      forall i | 0 <= i < |t| ensures r[i] == CityChar(t, i) {
        assert t[i] in p0;
        if i > 0 { assert t[i - 1] in p0; }
      }
    } else {
      var rest := parts[1..];
      assert CapitalizeAll(parts)[1..] == CapitalizeAll(rest);
      JoinCapitalizedPointwise(rest);
      var tr := Join(rest, '_');
      var rr := Join(CapitalizeAll(rest), ' ');
      assert t == p0 + ['_'] + tr;
      assert r == Capitalize(p0) + [' '] + rr;
      forall i | 0 <= i < |t| ensures r[i] == CityChar(t, i) {
        if i < |p0| {
          assert t[i] == p0[i];
          if i > 0 { assert t[i - 1] == p0[i - 1]; }
        } else if i > |p0| {
          var j := i - |p0| - 1;
          assert t[i] == tr[j] && r[i] == rr[j];
          if j > 0 { assert t[i - 1] == tr[j - 1]; }
        }
      }
    }
  }

  /** The formatted name contains no underscore. */
  lemma FormatHasNoUnderscore(name: Option<string>)
    ensures '_' !in FormatCityName(name)
  {
    var r := FormatCityName(name);
    if name.Some? {
      forall i | 0 <= i < |r| ensures r[i] != '_' {
        assert r[i] == CityChar(name.value, i);
      }
    }
  }

  /** Formatting an already formatted name returns it unchanged. */
  lemma FormatIdempotent(name: Option<string>)
    ensures FormatCityName(Some(FormatCityName(name))) == FormatCityName(name)
  {
    var r := FormatCityName(name);
    var rr := FormatCityName(Some(r));
    FormatHasNoUnderscore(name);
    forall i | 0 <= i < |r| ensures rr[i] == r[i] {
      assert rr[i] == CityChar(r, i);
      if i == 0 {
        assert name.Some?;
        UpperCharIdempotent(name.value[0]);
      }
    }
  }

  /** An item of the city comparison data: only `location` is reformatted. */
  datatype CityRow = CityRow(location: Option<string>, avgCost: real, totalClaims: real)

  /** formattedData: the same items in the same order, each with its location formatted. */
  function FormatRows(data: seq<CityRow>): (r: seq<CityRow>)
    ensures |r| == |data|
    ensures forall k :: 0 <= k < |data| ==>
              r[k].avgCost == data[k].avgCost && r[k].totalClaims == data[k].totalClaims
              && r[k].location.Some? && '_' !in r[k].location.value
              && |r[k].location.value| == |data[k].location.GetOr("")|
    ensures forall k :: 0 <= k < |data| ==> r[k].location == Some(FormatCityName(data[k].location))
  {
    seq(|data|, k requires 0 <= k < |data| =>
      FormatHasNoUnderscore(data[k].location);
      data[k].(location := Some(FormatCityName(data[k].location))))
  }

  /** Formatting the rows twice is the same as formatting them once. */
  lemma FormatRowsIdempotent(data: seq<CityRow>)
    ensures FormatRows(FormatRows(data)) == FormatRows(data)
  {
    var once := FormatRows(data);
    forall k | 0 <= k < |data| ensures FormatRows(once)[k] == once[k] {
      FormatIdempotent(data[k].location);
    }
  }
}
