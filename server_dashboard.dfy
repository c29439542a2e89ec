/**
 * The two data-driven series of the server's dashboard payload: the five most
 * expensive procedures and the coverage percentage of each payer, each
 * replaced by a fixed list when the data yields nothing. `parseFloat` is
 * supplied by the caller as `parse` (None for NaN).
 */
module ServerDashboard {
  import opened Wrappers
  import opened Numbers
  import opened Sequences
  import opened CsvLoad
  import opened Charts
  import opened PayerCoverage

  /** `record[key]` is truthy: present and not the empty string. */
  predicate Truthy(r: Record, key: string) {
    key in r && r[key] != ""
  }

  /** The first filter: a description and at least one truthy cost column. */
  predicate Listed(r: Record) {
    Truthy(r, "DESCRIPTION") && (Truthy(r, "BASE_COST") || Truthy(r, "COST") || Truthy(r, "TOTAL_COST"))
  }

  /**
   * The cost column read: the first truthy one of BASE_COST, COST, TOTAL_COST
   * (the opposite precedence to the metrics), even when it does not parse.
   */
  function CostText(r: Record): string {
    if Truthy(r, "BASE_COST") then r["BASE_COST"]
    else if Truthy(r, "COST") then r["COST"]
    else if Truthy(r, "TOTAL_COST") then r["TOTAL_COST"]
    else ""
  }

  /** The mapped entry: the description and the parsed cost, NaN becoming 0. */
  function AsProcedure(r: Record, parse: string -> Option<real>): Procedure
    requires Listed(r)
  {
    Procedure(r["DESCRIPTION"], parse(CostText(r)).GetOr(0.0))
  }

  function AsProcedures(records: seq<Record>, parse: string -> Option<real>): (ps: seq<Procedure>)
    requires forall i :: 0 <= i < |records| ==> Listed(records[i])
    ensures |ps| == |records|
    ensures forall i :: 0 <= i < |records| ==> ps[i] == AsProcedure(records[i], parse)
  {
    seq(|records|, i requires 0 <= i < |records| => AsProcedure(records[i], parse))
  }

  /** The listed records, mapped. */
  function ListedProcedures(records: seq<Record>, parse: string -> Option<real>): seq<Procedure> {
    var listed := Keep(records, r => Listed(r));
    assert forall i :: 0 <= i < |listed| ==> listed[i] in listed;
    AsProcedures(listed, parse)
  }

  /** The candidates before sorting: listed records mapped, keeping positive costs. */
  function Candidates(records: seq<Record>, parse: string -> Option<real>): (ps: seq<Procedure>)
    ensures forall p :: p in ps ==> p.cost > 0.0
    ensures IsSubsequence(ps, ListedProcedures(records, parse))
    ensures forall p :: multiset(ps)[p] == if p.cost > 0.0 then multiset(ListedProcedures(records, parse))[p] else 0
  {
    Keep(ListedProcedures(records, parse), (p: Procedure) => p.cost > 0.0)
  }

  /** The candidates are exactly the positive-cost entries made from listed records. */
  lemma CandidatesFromRecords(records: seq<Record>, parse: string -> Option<real>, p: Procedure)
    ensures p in Candidates(records, parse) <==> p.cost > 0.0 && exists r :: r in records && Listed(r) && AsProcedure(r, parse) == p
  {
    var listed := Keep(records, r => Listed(r));
    var mapped := ListedProcedures(records, parse);
    assert p in Candidates(records, parse) <==> p in mapped && p.cost > 0.0;
    if p in mapped {
      var i :| 0 <= i < |mapped| && mapped[i] == p;
      assert listed[i] in listed;
    }
    if exists r :: r in records && Listed(r) && AsProcedure(r, parse) == p {
      var r :| r in records && Listed(r) && AsProcedure(r, parse) == p;
      assert r in listed;
      var i :| 0 <= i < |listed| && listed[i] == r;
      assert mapped[i] == p;
    }
  }

  /** proceduresData: the five costliest candidates, most expensive first, or the fixed list. */
  function ProceduresData(records: seq<Record>, parse: string -> Option<real>): (ps: seq<Procedure>)
    ensures |ps| <= 5
    ensures Candidates(records, parse) == [] ==> ps == FallbackProcedures
    ensures Candidates(records, parse) != [] ==>
              |ps| >= 1 && NonIncreasing(ps, ProcedureCost) &&
              forall p :: p in ps ==> p in Candidates(records, parse) && p.cost > 0.0
    ensures Candidates(records, parse) != [] ==>
              |ps| == (if |Candidates(records, parse)| < 5 then |Candidates(records, parse)| else 5) &&
              multiset(ps) <= multiset(Candidates(records, parse))
  {
    var candidates := Candidates(records, parse);
    var top := Take(SortDesc(candidates, ProcedureCost), 5);
    if top == [] then FallbackProcedures
    else
      TopAreCandidates(candidates);
      top
  }

  /** The first five of the sorted candidates are sorted candidates. */
  lemma TopAreCandidates(candidates: seq<Procedure>)
    requires candidates != []
    ensures |Take(SortDesc(candidates, ProcedureCost), 5)| >= 1
    ensures NonIncreasing(Take(SortDesc(candidates, ProcedureCost), 5), ProcedureCost)
    ensures forall p :: p in Take(SortDesc(candidates, ProcedureCost), 5) ==> p in candidates
    ensures |Take(SortDesc(candidates, ProcedureCost), 5)| == if |candidates| < 5 then |candidates| else 5
    ensures multiset(Take(SortDesc(candidates, ProcedureCost), 5)) <= multiset(candidates)
  {
    var top := Take(SortDesc(candidates, ProcedureCost), 5);
    TakeOfSortedIsTop(candidates, 5, ProcedureCost);
    forall p | p in top ensures p in candidates {
      assert p in multiset(top);
    }
  }

  /** The fixed list is not in cost order: the MRI scan (2500) precedes chemotherapy (18000). */
  lemma FallbackNotSorted()
    ensures !NonIncreasing(FallbackProcedures, ProcedureCost)
  {
    assert ProcedureCost(FallbackProcedures[2]) < ProcedureCost(FallbackProcedures[3]);
  }

  /**
   * The result is the fixed list exactly when no record yields a candidate:
   * the fixed list is not sorted by cost, so a computed result never equals it.
   */
  lemma FallbackExactlyWhenNoCandidate(records: seq<Record>, parse: string -> Option<real>)
    ensures ProceduresData(records, parse) == FallbackProcedures <==> Candidates(records, parse) == []
  {
    FallbackNotSorted();
  }

  /** Every candidate left out of the top five costs no more than the cheapest one kept. */
  lemma ProceduresAreTheCostliest(records: seq<Record>, parse: string -> Option<real>)
    requires Candidates(records, parse) != []
    ensures forall p :: p in multiset(Candidates(records, parse)) - multiset(ProceduresData(records, parse)) ==>
              p.cost <= ProceduresData(records, parse)[|ProceduresData(records, parse)| - 1].cost
  {
    var candidates := Candidates(records, parse);
    var ps := ProceduresData(records, parse);
    assert ps == Take(SortDesc(candidates, ProcedureCost), 5);
    TopLeavesCheaper(candidates, ps);
  }

  lemma TopLeavesCheaper(candidates: seq<Procedure>, ps: seq<Procedure>)
    requires candidates != [] && ps == Take(SortDesc(candidates, ProcedureCost), 5)
    ensures forall p :: p in multiset(candidates) - multiset(ps) ==> p.cost <= ps[|ps| - 1].cost
  {
    TakeOfSortedIsTop(candidates, 5, ProcedureCost);
  }

  /** A first truthy cost column that does not parse hides the later ones: the record is dropped. */
  lemma UnparsableFirstCostDrops(r: Record, parse: string -> Option<real>)
    requires Listed(r) && Truthy(r, "BASE_COST") && parse(r["BASE_COST"]).None?
    ensures AsProcedure(r, parse).cost == 0.0
  {
  }

  /** `parseFloat(payer[key] || 0)`: a missing or empty amount is 0. */
  function Amount(r: Record, key: string, parse: string -> Option<real>): Option<real> {
    if Truthy(r, key) then parse(r[key]) else Some(0.0)
  }

  /** `payer.NAME || 'Unknown'` */
  function PayerName(r: Record): string {
    if Truthy(r, "NAME") then r["NAME"] else "Unknown"
  }

  /** `Math.round(total > 0 ? covered / total * 100 : 0)`; a NaN amount makes the total NaN, which is not > 0. */
  function CoveragePercent(covered: Option<real>, uncovered: Option<real>): real {
    if covered.Some? && uncovered.Some? && covered.value + uncovered.value > 0.0
    then Round(covered.value / (covered.value + uncovered.value) * 100.0) as real
    else 0.0
  }

  function PayerCoverageOf(r: Record, parse: string -> Option<real>): Coverage {
    Coverage(PayerName(r), CoveragePercent(Amount(r, "AMOUNT_COVERED", parse), Amount(r, "AMOUNT_UNCOVERED", parse)))
  }

  function AllPayerCoverage(payers: seq<Record>, parse: string -> Option<real>): (cs: seq<Coverage>)
    ensures |cs| == |payers|
    ensures forall i :: 0 <= i < |payers| ==> cs[i] == PayerCoverageOf(payers[i], parse)
  {
    seq(|payers|, i requires 0 <= i < |payers| => PayerCoverageOf(payers[i], parse))
  }

  /**
   * payerCoverageData: one entry per payer whose name is not 'Unknown', in
   * payer order, or the fixed list when none is left.
   */
  function PayerCoverageData(payers: seq<Record>, parse: string -> Option<real>): (cs: seq<Coverage>)
    ensures cs != []
    ensures forall c :: c in cs ==> c.name != "Unknown"
    ensures cs == FallbackCoverage || IsSubsequence(cs, AllPayerCoverage(payers, parse))
    ensures (forall i :: 0 <= i < |payers| ==> PayerName(payers[i]) == "Unknown") ==> cs == FallbackCoverage
    ensures forall i :: 0 <= i < |payers| && PayerName(payers[i]) != "Unknown" ==> PayerCoverageOf(payers[i], parse) in cs
    ensures (exists i :: 0 <= i < |payers| && PayerName(payers[i]) != "Unknown") ==>
              forall c :: multiset(cs)[c] == if c.name != "Unknown" then multiset(AllPayerCoverage(payers, parse))[c] else 0
  {
    var all := AllPayerCoverage(payers, parse);
    var named := Keep(all, Named);
    NamedCoverage(payers, parse, all, named);
    FallbackCoverageNamed();
    if named == [] then FallbackCoverage else named
  }

  predicate Named(c: Coverage) {
    c.name != "Unknown"
  }

  lemma NamedCoverage(payers: seq<Record>, parse: string -> Option<real>, all: seq<Coverage>, named: seq<Coverage>)
    requires all == AllPayerCoverage(payers, parse) && named == Keep(all, Named)
    ensures forall c :: c in named ==> c.name != "Unknown"
    ensures forall i :: 0 <= i < |payers| && PayerName(payers[i]) != "Unknown" ==> PayerCoverageOf(payers[i], parse) in named
    ensures (forall i :: 0 <= i < |payers| ==> PayerName(payers[i]) == "Unknown") ==> named == []
  {
    forall i | 0 <= i < |payers| && PayerName(payers[i]) != "Unknown" ensures PayerCoverageOf(payers[i], parse) in named {
      CoverageNamedAt(payers, parse, all, i);
      assert all[i] in all;
    }
    if named != [] {
      var c := named[0];
      assert c in all && Named(c);
      var i :| 0 <= i < |all| && all[i] == c;
      CoverageNamedAt(payers, parse, all, i);
      assert PayerName(payers[i]) != "Unknown";
    }
  }

  /** Entry i of the coverage list carries the name of payer i. */
  lemma CoverageNamedAt(payers: seq<Record>, parse: string -> Option<real>, all: seq<Coverage>, i: int)
    requires all == AllPayerCoverage(payers, parse) && 0 <= i < |payers|
    ensures all[i] == PayerCoverageOf(payers[i], parse) && all[i].name == PayerName(payers[i])
  {
  }

  lemma FallbackCoverageNamed()
    ensures forall c :: c in FallbackCoverage ==> c.name != "Unknown"
  {
    forall c | c in FallbackCoverage ensures c.name != "Unknown" {
      var i :| 0 <= i < |FallbackCoverage| && FallbackCoverage[i] == c;
    }
  }

  /** With non-negative amounts the percentage is a whole number between 0 and 100. */
  lemma CoveragePercentRange(covered: real, uncovered: real)
    requires covered >= 0.0 && uncovered >= 0.0
    ensures 0.0 <= CoveragePercent(Some(covered), Some(uncovered)) <= 100.0
    ensures CoveragePercent(Some(covered), Some(uncovered)) == CoveragePercent(Some(covered), Some(uncovered)).Floor as real
  {
    var total := covered + uncovered;
    if total > 0.0 {
      var share := covered / total;
      assert 0.0 <= share <= 1.0 by {
        assert share * total == covered;
      }
      RoundBetween(share * 100.0, 0, 100);
    }
  }

  /** An entirely uncovered payer shows 0, an entirely covered one 100. */
  lemma CoveragePercentExtremes(amount: real)
    requires amount > 0.0
    ensures CoveragePercent(Some(0.0), Some(amount)) == 0.0
    ensures CoveragePercent(Some(amount), Some(0.0)) == 100.0
  {
    assert amount / (amount + 0.0) == 1.0;
    RoundInt(100);
  }
}
