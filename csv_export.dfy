/**
 * The CSV text of the dashboard export: a header line naming eight claim
 * fields, then one line per filtered claim. A field is wrapped in double
 * quotes only when it is a string containing a comma, and quotes inside a
 * field are left as they are (this is not the escaping of section 2 of
 * RFC 4180).
 */
module CsvExport {
  import opened Wrappers
  import opened Text
  import opened Claims

  /** The exported columns, in order. */
  const Headers: seq<string> := ["date", "procedure", "patientId", "baseCost", "totalCost", "coveragePercent", "condition", "location"]

  /** `headers.join(",")` */
  const HeaderLine: string := Join(Headers, ',')

  /** A claim field as the export sees it: a string, a number, or absent. */
  datatype FieldValue = Text(text: string) | Number(number: real) | Missing

  /** `claim[header]` for each of the eight headers. */
  function Values(c: Claim): (vs: seq<FieldValue>)
    ensures |vs| == |Headers|
  {
    [ TextOf(c.date), TextOf(c.procedure), TextOf(c.patientId),
      NumberOf(c.baseCost), NumberOf(c.totalCost), NumberOf(c.coveragePercent),
      TextOf(c.condition), TextOf(c.location) ]
  }

  function TextOf(s: Option<string>): FieldValue {
    match s
    case Some(t) => Text(t)
    case None => Missing
  }

  function NumberOf(x: Option<real>): FieldValue {
    match x
    case Some(n) => Number(n)
    case None => Missing
  }

  /**
   * How `Array.prototype.join` writes one mapped value: a string with a comma
   * inside quotes, any other string as it is, a number as `show` renders it
   * (JavaScript's number-to-string conversion, supplied by the caller), and an
   * absent value as the empty string.
   */
  function Cell(v: FieldValue, show: real -> string): string {
    match v
    case Text(s) => if ',' in s then "\"" + s + "\"" else s
    case Number(n) => show(n)
    case Missing => ""
  }

  /** The mapped row's cells. */
  function Cells(c: Claim, show: real -> string): (cells: seq<string>)
    ensures |cells| == |Headers|
    ensures forall k :: 0 <= k < |Headers| ==> cells[k] == Cell(Values(c)[k], show)
  {
    var vs := Values(c);
    seq(|vs|, k requires 0 <= k < |vs| => Cell(vs[k], show))
  }

  /** `row.join(",")` */
  function RowLine(c: Claim, show: real -> string): string {
    Join(Cells(c, show), ',')
  }

  /**
   * The whole file: the header line, then one line per claim, joined with "\n".
   * The claims are the filtered entries, none of them null.
   */
  function CsvText(claims: seq<Option<Claim>>, show: real -> string): string
    requires NoNulls(claims)
  {
    Join([HeaderLine] + RowLines(claims, show), '\n')
  }

  function RowLines(claims: seq<Option<Claim>>, show: real -> string): (lines: seq<string>)
    requires NoNulls(claims)
    ensures |lines| == |claims|
    ensures forall i :: 0 <= i < |claims| ==> lines[i] == RowLine(claims[i].value, show)
  {
    seq(|claims|, i requires 0 <= i < |claims| => RowLine(claims[i].value, show))
  }

  /** The CSV string `exportAsCsv` builds before handing it to the download. */
  method ExportAsCsv(claims: seq<Option<Claim>>, show: real -> string) returns (csvString: string)
    requires NoNulls(claims)
    ensures csvString == CsvText(claims, show)
  {
    var csvRows := [Join(Headers, ',')];
    for i := 0 to |claims|
      invariant csvRows == [HeaderLine] + RowLines(claims[..i], show)
    {
      var row := Cells(claims[i].value, show);
      RowLinesStep(claims, i, show);
      csvRows := csvRows + [Join(row, ',')];
    }
    assert claims[..|claims|] == claims;
    csvString := Join(csvRows, '\n');
  }

  lemma RowLinesStep(claims: seq<Option<Claim>>, i: nat, show: real -> string)
    requires NoNulls(claims) && i < |claims|
    ensures RowLines(claims[..i + 1], show) == RowLines(claims[..i], show) + [RowLine(claims[i].value, show)]
  {
    var longer, shorter := RowLines(claims[..i + 1], show), RowLines(claims[..i], show) + [RowLine(claims[i].value, show)];
    assert |longer| == |shorter|;
    forall k | 0 <= k < |longer| ensures longer[k] == shorter[k] {
      assert claims[..i + 1][k] == claims[k];
    }
  }

  /** A cell is quoted exactly when its value is a string containing a comma. */
  lemma QuotedIffTextWithComma(v: FieldValue, show: real -> string)
    requires forall x :: |show(x)| == 0 || show(x)[0] != '"'
    ensures |Cell(v, show)| > 0 && Cell(v, show)[0] == '"' <==> (v.Text? && ',' in v.text) || (v.Text? && |v.text| > 0 && v.text[0] == '"')
    ensures v.Text? && ',' in v.text ==> Cell(v, show)[1..|Cell(v, show)| - 1] == v.text
  {
  }

  /** Joining parts that do not contain the separator and splitting again gives the parts back. */
  lemma {:induction false} SplitJoin(parts: seq<string>, d: char)
    requires |parts| >= 1
    requires forall k :: 0 <= k < |parts| ==> d !in parts[k]
    ensures Split(Join(parts, d), d) == parts
  {
    if |parts| == 1 {
      SplitWithoutSeparator(parts[0], d);
    } else {
      SplitJoin(parts[1..], d);
      SplitPrefix(parts[0], d, Join(parts[1..], d));
    }
  }

  /** Splitting `p + [d] + rest` when `p` has no `d`: `p` is the first part and the rest splits as before. */
  lemma {:induction false} SplitPrefix(p: string, d: char, rest: string)
    requires d !in p
    ensures Split(p + [d] + rest, d) == [p] + Split(rest, d)
  {
    if |p| == 0 {
      assert (p + [d] + rest)[1..] == rest;
    } else {
      SplitPrefix(p[1..], d, rest);
      assert (p + [d] + rest)[1..] == p[1..] + [d] + rest;
      assert [p[0]] + p[1..] == p;
    }
  }

  /** No line of the export contains a newline when no field does, so the file splits back into its lines. */
  lemma LinesOfExport(claims: seq<Option<Claim>>, show: real -> string)
    requires NoNulls(claims)
    requires forall x :: '\n' !in show(x)
    requires forall i, k :: 0 <= i < |claims| && 0 <= k < |Headers| ==> NoNewline(Values(claims[i].value)[k])
    ensures Split(CsvText(claims, show), '\n') == [HeaderLine] + RowLines(claims, show)
    ensures |Split(CsvText(claims, show), '\n')| == |claims| + 1
  {
    var lines := [HeaderLine] + RowLines(claims, show);
    forall j | 0 <= j < |lines| ensures '\n' !in lines[j] {
      if j > 0 {
        RowLineHasNoNewline(claims[j - 1].value, show);
      } else {
        JoinKeepsOut(Headers, ',', '\n');
      }
    }
    SplitJoin(lines, '\n');
  }

  lemma RowLineHasNoNewline(c: Claim, show: real -> string)
    requires forall x :: '\n' !in show(x)
    requires forall k :: 0 <= k < |Headers| ==> NoNewline(Values(c)[k])
    ensures '\n' !in RowLine(c, show)
  {
    var cells := Cells(c, show);
    forall k | 0 <= k < |cells| ensures '\n' !in cells[k] {
      assert NoNewline(Values(c)[k]);
    }
    JoinKeepsOut(cells, ',', '\n');
  }

  predicate NoNewline(v: FieldValue) {
    v.Text? ==> '\n' !in v.text
  }

  /** A joined string holds a character other than the separator only if some part does. */
  lemma {:induction false} JoinKeepsOut(parts: seq<string>, d: char, c: char)
    requires |parts| >= 1 && c != d
    requires forall k :: 0 <= k < |parts| ==> c !in parts[k]
    ensures c !in Join(parts, d)
  {
    if |parts| > 1 {
      JoinKeepsOut(parts[1..], d, c);
    }
  }

  /**
   * When no string field contains a comma and no number renders with one, a
   * row line splits on commas back into exactly the eight values as written.
   */
  lemma RowRoundTrip(c: Claim, show: real -> string)
    requires forall x :: ',' !in show(x)
    requires forall k :: 0 <= k < |Headers| ==> (Values(c)[k].Text? ==> ',' !in Values(c)[k].text)
    ensures Split(RowLine(c, show), ',') == Cells(c, show)
    ensures forall k :: 0 <= k < |Headers| && Values(c)[k].Text? ==> Split(RowLine(c, show), ',')[k] == Values(c)[k].text
  {
    SplitJoin(Cells(c, show), ',');
  }

  /**
   * A string holding both a comma and a double quote is wrapped as it is, so
   * the quote inside ends the quoted field early for an RFC 4180 reader:
   * `a",b` is written as `"a",b"`.
   */
  lemma InnerQuotesNotDoubled(show: real -> string)
    ensures Cell(Text("a\",b"), show) == "\"a\",b\""
  {
  }
}
