/**
 * The server's headline metrics over the loaded datasets: distinct patients
 * across procedures and conditions, total expenses from the procedures' cost
 * columns, and an average cost, each with its hard-coded fallback.
 * `parseFloat` is supplied by the caller as `parse` (None for NaN).
 */
module ServerMetrics {
  import opened Wrappers
  import opened CsvLoad

  datatype Metrics = Metrics(totalPatients: nat, totalExpenses: real, avgClaimCost: real)

  /** The values used when nothing can be derived, and by the exception handler. */
  const FallbackMetrics: Metrics := Metrics(1250, 1250000.0, 2500.0)

  /** The cost columns, in the order they are examined. */
  const CostFields: seq<string> := ["BASE_COST", "COST", "TOTAL_COST"]

  /** `record.PATIENT` is truthy. */
  predicate HasPatient(r: Record) {
    "PATIENT" in r && r["PATIENT"] != ""
  }

  /** The distinct truthy PATIENT values of both datasets. */
  function Patients(procedures: seq<Record>, conditions: seq<Record>): set<string> {
    set r | r in procedures + conditions && HasPatient(r) :: r["PATIENT"]
  }

  /** `parseFloat(record[field])`, where a missing column parses to NaN. */
  function FieldNumber(r: Record, field: string, parse: string -> Option<real>): Option<real> {
    if field in r then parse(r[field]) else None
  }

  /** A cost column that parses to a positive number. */
  predicate ValidCost(r: Record, field: string, parse: string -> Option<real>) {
    var v := FieldNumber(r, field, parse);
    v.Some? && v.value > 0.0
  }

  /** The value of the last valid column among `fields`, or 0 when none is valid. */
  function LastValidCost(r: Record, fields: seq<string>, parse: string -> Option<real>): (cost: real)
    ensures cost >= 0.0
    ensures cost > 0.0 <==> exists f :: f in fields && ValidCost(r, f, parse)
  {
    if fields == [] then 0.0
    else if ValidCost(r, fields[|fields| - 1], parse) then FieldNumber(r, fields[|fields| - 1], parse).value
    else
      var rest := LastValidCost(r, fields[..|fields| - 1], parse);
      assert forall f :: f in fields <==> f in fields[..|fields| - 1] || f == fields[|fields| - 1];
      rest
  }

  /** How many of `fields` are valid. */
  function ValidCount(r: Record, fields: seq<string>, parse: string -> Option<real>): (n: nat)
    ensures n <= |fields|
  {
    if fields == [] then 0
    else ValidCount(r, fields[..|fields| - 1], parse) + (if ValidCost(r, fields[|fields| - 1], parse) then 1 else 0)
  }

  /** A procedure's cost: the last of BASE_COST, COST, TOTAL_COST that is valid. */
  function RecordCost(r: Record, parse: string -> Option<real>): real {
    LastValidCost(r, CostFields, parse)
  }

  /** The sum of the procedures' costs. */
  function TotalCost(procedures: seq<Record>, parse: string -> Option<real>): (total: real)
    ensures total >= 0.0
  {
    if procedures == [] then 0.0
    else TotalCost(procedures[..|procedures| - 1], parse) + RecordCost(procedures[|procedures| - 1], parse)
  }

  /** `validCostRecords`: the number of valid cost columns over all procedures. */
  function ValidFields(procedures: seq<Record>, parse: string -> Option<real>): nat {
    if procedures == [] then 0
    else ValidFields(procedures[..|procedures| - 1], parse) + ValidCount(procedures[|procedures| - 1], CostFields, parse)
  }

  /** The metrics as calculateMetrics derives them. */
  function MetricsOf(procedures: seq<Record>, conditions: seq<Record>, parse: string -> Option<real>): Metrics {
    var patients := Patients(procedures, conditions);
    var total := TotalCost(procedures, parse);
    var valid := ValidFields(procedures, parse);
    Metrics(
      if |patients| > 0 then |patients| else 1250,
      if total > 0.0 then total else 1250000.0,
      if valid > 0 then total / (valid as real) else 2500.0)
  }

  /**
   * calculateMetrics. An absent dataset is passed as the empty sequence; the
   * exception handler cannot be reached with these inputs.
   */
  method CalculateMetrics(procedures: seq<Record>, conditions: seq<Record>, parse: string -> Option<real>) returns (m: Metrics)
    ensures m == MetricsOf(procedures, conditions, parse)
  {
    var uniquePatients: set<string> := {};
    var all := procedures + conditions;
    for i := 0 to |all|
      invariant uniquePatients == Patients(all[..i], [])
    {
      PatientsStep(all, i);
      if HasPatient(all[i]) {
        uniquePatients := uniquePatients + {all[i]["PATIENT"]};
      }
    }
    assert all[..|all|] + [] == procedures + conditions;

    var totalExpenses := 0.0;
    var validCostRecords := 0;
    for i := 0 to |procedures|
      invariant totalExpenses == TotalCost(procedures[..i], parse)
      invariant validCostRecords == ValidFields(procedures[..i], parse)
    {
      var proc := procedures[i];
      var cost := 0.0;
      for f := 0 to |CostFields|
        invariant cost == LastValidCost(proc, CostFields[..f], parse)
        invariant validCostRecords == ValidFields(procedures[..i], parse) + ValidCount(proc, CostFields[..f], parse)
      {
        FieldStep(proc, CostFields, f, parse);
        var value := FieldNumber(proc, CostFields[f], parse);
        if value.Some? && value.value > 0.0 {
          cost := value.value;
          validCostRecords := validCostRecords + 1;
        }
      }
      assert CostFields[..|CostFields|] == CostFields;
      RecordStep(procedures, i, parse);
      if cost > 0.0 {
        totalExpenses := totalExpenses + cost;
      }
    }
    assert procedures[..|procedures|] == procedures;

    var patientCount := if |uniquePatients| > 0 then |uniquePatients| else 1250;
    var avgClaimCost := if validCostRecords > 0 then totalExpenses / (validCostRecords as real) else 2500.0;
    totalExpenses := if totalExpenses > 0.0 then totalExpenses else 1250000.0;
    m := Metrics(patientCount, totalExpenses, avgClaimCost);
  }

  lemma PatientsStep(all: seq<Record>, i: nat)
    requires i < |all|
    ensures Patients(all[..i + 1], []) == Patients(all[..i], []) + (if HasPatient(all[i]) then {all[i]["PATIENT"]} else {})
  {
    assert all[..i + 1] + [] == all[..i] + [] + [all[i]];
  }

  lemma FieldStep(r: Record, fields: seq<string>, f: nat, parse: string -> Option<real>)
    requires f < |fields|
    ensures LastValidCost(r, fields[..f + 1], parse) ==
              if ValidCost(r, fields[f], parse) then FieldNumber(r, fields[f], parse).value else LastValidCost(r, fields[..f], parse)
    ensures ValidCount(r, fields[..f + 1], parse) == ValidCount(r, fields[..f], parse) + if ValidCost(r, fields[f], parse) then 1 else 0
  {
    assert fields[..f + 1][..f] == fields[..f];
  }

  lemma RecordStep(procedures: seq<Record>, i: nat, parse: string -> Option<real>)
    requires i < |procedures|
    ensures TotalCost(procedures[..i + 1], parse) == TotalCost(procedures[..i], parse) + RecordCost(procedures[i], parse)
    ensures ValidFields(procedures[..i + 1], parse) == ValidFields(procedures[..i], parse) + ValidCount(procedures[i], CostFields, parse)
  {
    assert procedures[..i + 1][..i] == procedures[..i];
  }

  /** A valid column somewhere makes the total positive. */
  lemma {:induction false} ValidFieldsMakeTotalPositive(procedures: seq<Record>, parse: string -> Option<real>)
    requires ValidFields(procedures, parse) > 0
    ensures TotalCost(procedures, parse) > 0.0
  {
    var init := procedures[..|procedures| - 1];
    var last := procedures[|procedures| - 1];
    if ValidFields(init, parse) > 0 {
      ValidFieldsMakeTotalPositive(init, parse);
    } else {
      ValidCountPositive(last, CostFields, parse);
    }
  }

  lemma {:induction false} ValidCountPositive(r: Record, fields: seq<string>, parse: string -> Option<real>)
    requires ValidCount(r, fields, parse) > 0
    ensures exists f :: f in fields && ValidCost(r, f, parse)
  {
    if !ValidCost(r, fields[|fields| - 1], parse) {
      ValidCountPositive(r, fields[..|fields| - 1], parse);
      var f :| f in fields[..|fields| - 1] && ValidCost(r, f, parse);
      assert f in fields;
    }
  }

  /** Every metric is positive: at least one patient, positive expenses and a positive average. */
  lemma MetricsPositive(procedures: seq<Record>, conditions: seq<Record>, parse: string -> Option<real>)
    ensures MetricsOf(procedures, conditions, parse).totalPatients >= 1
    ensures MetricsOf(procedures, conditions, parse).totalExpenses > 0.0
    ensures MetricsOf(procedures, conditions, parse).avgClaimCost > 0.0
  {
    if ValidFields(procedures, parse) > 0 {
      ValidFieldsMakeTotalPositive(procedures, parse);
    }
  }

  /** Without data the metrics are exactly the values of the exception handler. */
  lemma EmptyDatasetsGiveFallback(parse: string -> Option<real>)
    ensures MetricsOf([], [], parse) == FallbackMetrics
  {
    assert Patients([], []) == {};
  }

  /** The cost taken is the last valid one: TOTAL_COST wins over COST, which wins over BASE_COST. */
  lemma CostPrecedence(r: Record, parse: string -> Option<real>)
    ensures ValidCost(r, "TOTAL_COST", parse) ==> RecordCost(r, parse) == FieldNumber(r, "TOTAL_COST", parse).value
    ensures !ValidCost(r, "TOTAL_COST", parse) && ValidCost(r, "COST", parse) ==> RecordCost(r, parse) == FieldNumber(r, "COST", parse).value
    ensures !ValidCost(r, "TOTAL_COST", parse) && !ValidCost(r, "COST", parse) ==>
              RecordCost(r, parse) == if ValidCost(r, "BASE_COST", parse) then FieldNumber(r, "BASE_COST", parse).value else 0.0
  {
    var two := CostFields[..|CostFields| - 1];
    var one := two[..|two| - 1];
    assert two == ["BASE_COST", "COST"] && one == ["BASE_COST"] && one[..0] == [];
    assert RecordCost(r, parse) == if ValidCost(r, "TOTAL_COST", parse) then FieldNumber(r, "TOTAL_COST", parse).value else LastValidCost(r, two, parse);
    assert LastValidCost(r, two, parse) == if ValidCost(r, "COST", parse) then FieldNumber(r, "COST", parse).value else LastValidCost(r, one, parse);
    assert LastValidCost(r, one, parse) == if ValidCost(r, "BASE_COST", parse) then FieldNumber(r, "BASE_COST", parse).value else 0.0;
  }

  /**
   * The average divides by valid columns, not by records: one procedure with
   * BASE_COST 100 and COST 300 totals 300 but averages 150.
   */
  lemma AverageCountsColumns()
    ensures var parse := (s: string) => if s == "100" then Some(100.0) else if s == "300" then Some(300.0) else None;
            var proc := map["BASE_COST" := "100", "COST" := "300"];
            MetricsOf([proc], [], parse) == Metrics(1250, 300.0, 150.0)
  {
    var parse := (s: string) => if s == "100" then Some(100.0) else if s == "300" then Some(300.0) else None;
    var proc := map["BASE_COST" := "100", "COST" := "300"];
    assert CostFields[..2] == ["BASE_COST", "COST"];
    assert CostFields[..2][..1] == ["BASE_COST"];
    assert [proc][..0] == [];
    assert ValidCount(proc, CostFields, parse) == 2;
    assert RecordCost(proc, parse) == 300.0;
    assert Patients([proc], []) == {};
  }
}
