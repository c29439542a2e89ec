/**
 * The server's CSV intake: choosing the delimiter from a sample of the file,
 * and cleaning each parsed row (trimmed keys, trimmed values, absent values
 * dropped). The file system and the CSV parser itself are not modelled: a
 * parsed row arrives as its key/value pairs in column order.
 */
module CsvLoad {
  import opened Wrappers
  import opened Text

  /** A cleaned record, as the rest of the server reads it: column name to text. */
  type Record = map<string, string>

  /** A row as the parser hands it over: each column with its value, absent when `undefined`. */
  type RawRow = seq<(string, Option<string>)>

  /** How often c occurs in s. */
  function Count(s: string, c: char): nat {
    if s == [] then 0 else Count(s[..|s| - 1], c) + (if s[|s| - 1] == c then 1 else 0)
  }

  /** The count agrees with the multiset of the characters of s. */
  lemma {:induction false} CountIsMultiplicity(s: string, c: char)
    ensures Count(s, c) == multiset(s)[c]
  {
    if s != [] {
      CountIsMultiplicity(s[..|s| - 1], c);
      assert s == s[..|s| - 1] + [s[|s| - 1]];
    }
  }

  /** `slice(0, 1000)` */
  function Sample(content: string): (sample: string)
    ensures |sample| <= 1000 && |sample| <= |content| && sample == content[..|sample|]
  {
    if |content| <= 1000 then content else content[..1000]
  }

  /**
   * getDelimiter: tab when tabs strictly outnumber commas in the first 1000
   * characters, comma otherwise, and comma when the file cannot be read (None).
   */
  function GetDelimiter(content: Option<string>): (d: char)
    ensures d == '\t' || d == ','
    ensures d == '\t' <==> content.Some? && multiset(Sample(content.value))['\t'] > multiset(Sample(content.value))[',']
  {
    match content
    case None => ','
    case Some(text) =>
      var sample := Sample(text);
      CountIsMultiplicity(sample, '\t');
      CountIsMultiplicity(sample, ',');
      if Count(sample, '\t') > Count(sample, ',') then '\t' else ','
  }

  /** Nothing after the first 1000 characters affects the choice. */
  lemma DelimiterReadsOnlyTheSample(head: string, tail: string)
    requires |head| >= 1000
    ensures GetDelimiter(Some(head + tail)) == GetDelimiter(Some(head))
  {
    assert Sample(head + tail) == Sample(head);
  }

  /** A file with as many commas as tabs is read as comma-separated. */
  lemma TieGivesComma(content: string)
    requires multiset(Sample(content))['\t'] == multiset(Sample(content))[',']
    ensures GetDelimiter(Some(content)) == ','
  {
  }

  /**
   * The cleaned row, for a given normalising function: for each column with a
   * value, the normalised key mapped to the normalised value; a later column
   * whose key normalises the same overwrites an earlier one.
   */
  function CleanedWith(row: RawRow, clean: string -> string): Record {
    if row == [] then map[]
    else
      var (key, value) := row[|row| - 1];
      var before := CleanedWith(row[..|row| - 1], clean);
      match value
      case Some(text) => before[clean(key) := clean(text)]
      case None => before
  }

  /** loadCSV's cleaning: keys and string values trimmed. */
  function Cleaned(row: RawRow): Record {
    CleanedWith(row, Trim)
  }

  /** Cleans one row (the `'data'` handler of loadCSV). */
  method CleanRow(row: RawRow) returns (cleanedData: Record)
    ensures cleanedData == Cleaned(row)
  {
    cleanedData := map[];
    for i := 0 to |row|
      invariant cleanedData == Cleaned(row[..i])
    {
      var (key, value) := row[i];
      assert row[..i + 1][..i] == row[..i];
      if value.Some? {
        cleanedData := cleanedData[Trim(key) := Trim(value.value)];
      }
    }
    assert row[..|row|] == row;
  }

  /** loadCSV's accumulation: one cleaned record per parsed row, in order. */
  method LoadRows(rows: seq<RawRow>) returns (results: seq<Record>)
    ensures |results| == |rows|
    ensures forall i :: 0 <= i < |rows| ==> results[i] == Cleaned(rows[i])
  {
    results := [];
    for i := 0 to |rows|
      invariant |results| == i
      invariant forall k :: 0 <= k < i ==> results[k] == Cleaned(rows[k])
    {
      var cleanedData := CleanRow(rows[i]);
      AppendKeeps(results, cleanedData, rows[..i + 1]);
      results := results + [cleanedData];
    }
  }

  lemma AppendKeeps(results: seq<Record>, last: Record, rows: seq<RawRow>)
    requires |rows| == |results| + 1
    requires forall k :: 0 <= k < |results| ==> results[k] == Cleaned(rows[k])
    requires last == Cleaned(rows[|results|])
    ensures forall k :: 0 <= k < |rows| ==> (results + [last])[k] == Cleaned(rows[k])
  {
  }

  /** Column i has a value and its key normalises to k. */
  predicate SetsWith(row: RawRow, i: int, k: string, clean: string -> string) {
    0 <= i < |row| && row[i].1.Some? && clean(row[i].0) == k
  }

  /** Cleaning a row is cleaning all but its last column, then applying the last one. */
  lemma CleanedLast(row: RawRow, k: string, clean: string -> string)
    requires row != []
    ensures SetsWith(row, |row| - 1, k, clean) ==>
              k in CleanedWith(row, clean) && CleanedWith(row, clean)[k] == clean(row[|row| - 1].1.value)
    ensures !SetsWith(row, |row| - 1, k, clean) ==>
              (k in CleanedWith(row, clean) <==> k in CleanedWith(row[..|row| - 1], clean)) &&
              (k in CleanedWith(row, clean) ==> CleanedWith(row, clean)[k] == CleanedWith(row[..|row| - 1], clean)[k])
  {
  }

  lemma {:induction false} CleanedWithKeys(row: RawRow, k: string, clean: string -> string)
    ensures k in CleanedWith(row, clean) <==> exists i :: SetsWith(row, i, k, clean)
  {
    if row != [] {
      var init := row[..|row| - 1];
      CleanedWithKeys(init, k, clean);
      CleanedLast(row, k, clean);
      if exists i :: SetsWith(init, i, k, clean) {
        var i :| SetsWith(init, i, k, clean);
        assert SetsWith(row, i, k, clean);
      }
      if exists i :: SetsWith(row, i, k, clean) {
        var i :| SetsWith(row, i, k, clean);
        if i < |init| {
          assert SetsWith(init, i, k, clean);
        }
      }
    }
  }

  lemma {:induction false} CleanedWithValues(row: RawRow, k: string, clean: string -> string)
    requires k in CleanedWith(row, clean)
    ensures exists i :: SetsWith(row, i, k, clean) && CleanedWith(row, clean)[k] == clean(row[i].1.value) &&
                        forall j :: i < j < |row| ==> !SetsWith(row, j, k, clean)
  {
    var init := row[..|row| - 1];
    CleanedLast(row, k, clean);
    if SetsWith(row, |row| - 1, k, clean) {
      assert SetsWith(row, |row| - 1, k, clean);
    } else {
      CleanedWithValues(init, k, clean);
      var i :| SetsWith(init, i, k, clean) && CleanedWith(init, clean)[k] == clean(init[i].1.value) &&
               forall j :: i < j < |init| ==> !SetsWith(init, j, k, clean);
      assert SetsWith(row, i, k, clean) && row[i] == init[i];
      forall j | i < j < |row| ensures !SetsWith(row, j, k, clean) {
        if j < |init| {
          assert !SetsWith(init, j, k, clean);
          assert row[j] == init[j];
        }
      }
    }
  }

  /** The cleaned keys are exactly the trimmed keys of the columns that have a value. */
  lemma CleanedKeys(row: RawRow, k: string)
    ensures k in Cleaned(row) <==> exists i :: 0 <= i < |row| && row[i].1.Some? && Trim(row[i].0) == k
  {
    CleanedWithKeys(row, k, Trim);
    assert forall i :: SetsWith(row, i, k, Trim) <==> 0 <= i < |row| && row[i].1.Some? && Trim(row[i].0) == k;
  }

  /**
   * Each cleaned value is the trimmed value of the last column whose key trims
   * to it, and is itself trimmed.
   */
  lemma CleanedValues(row: RawRow, k: string)
    requires k in Cleaned(row)
    ensures Trim(Cleaned(row)[k]) == Cleaned(row)[k]
    ensures exists i :: SetsWith(row, i, k, Trim) && Cleaned(row)[k] == Trim(row[i].1.value) &&
                        forall j :: i < j < |row| ==> !SetsWith(row, j, k, Trim)
  {
    CleanedWithValues(row, k, Trim);
    var i :| SetsWith(row, i, k, Trim) && Cleaned(row)[k] == Trim(row[i].1.value) &&
             forall j :: i < j < |row| ==> !SetsWith(row, j, k, Trim);
    TrimIdempotent(row[i].1.value);
  }
}
