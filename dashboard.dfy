/** The payroll analytics page: employee records become rows, the rows
    with a usable wage are aggregated per department, and the page derives
    its headline figures, the top-versus-rest split, the Pareto curve and
    the recipient checks from them. */
module Dashboard {
  import opened Wrappers
  import opened JsText
  import opened SeqMath
  import opened RealAlgebra
  import opened WageStats

  // ---------------------------------------------------------------------
  // Rows
  // ---------------------------------------------------------------------

  /** An employee as the JSON provides it; the fields read with `?.` or
      `??` may be missing. */
  datatype Employee = Employee(
    id: Option<string>,
    firstName: string,
    lastName: string,
    recipient: Option<string>,
    wage: RawWage,
    department: Option<string>)

  datatype Row = Row(
    key: string,
    name: string,
    recipient: string,
    department: string,
    wage: Number,
    wageRaw: RawWage,
    wageValid: bool)

  const Unassigned: string := "Unassigned"

  /** A wage counts when it is a finite number above zero. */
  predicate UsableWage(n: Number)
  {
    n.Finite? && n.value > 0.0
  }

  /** The id, or the untrimmed recipient (or "emp") followed by the
      position. */
  function KeyOf(e: Employee, idx: nat): string
  {
    match e.id
    case Some(id) => id
    case None => (match e.recipient case Some(r) => r case None => "emp") + "-" + Decimal(idx)
  }

  /** The trimmed department, or "Unassigned" when it is missing or
      blank. */
  function DepartmentOf(e: Employee): string
  {
    match e.department
    case Some(d) => if Trim(d) == "" then Unassigned else Trim(d)
    case None => Unassigned
  }

  function RowOf(e: Employee, idx: nat): Row
  {
    var wage := ParseWage(e.wage);
    Row(KeyOf(e, idx),
        Trim(e.firstName + " " + e.lastName),
        match e.recipient case Some(r) => Trim(r) case None => "",
        DepartmentOf(e),
        wage,
        e.wage,
        UsableWage(wage))
  }

  /** One row per employee, in order. */
  function Rows(emps: seq<Employee>): (rows: seq<Row>)
    ensures |rows| == |emps|
    ensures forall i :: 0 <= i < |emps| ==> rows[i] == RowOf(emps[i], i)
    ensures WellFormed(rows)
  {
    seq(|emps|, i requires 0 <= i < |emps| => RowOf(emps[i], i))
  }

  /** Every row's validity flag says whether its wage is usable. */
  predicate WellFormed(rows: seq<Row>)
  {
    forall i :: 0 <= i < |rows| ==> (rows[i].wageValid <==> UsableWage(rows[i].wage))
  }

  /** A department is never blank and never has white space around it;
      a missing or blank one is "Unassigned". */
  lemma {:induction false} DepartmentNamed(e: Employee)
    ensures DepartmentOf(e) != "" && Trim(DepartmentOf(e)) == DepartmentOf(e)
    ensures DepartmentOf(e) == Unassigned <==>
              e.department.None? || AllJsSpace(e.department.value) || Trim(e.department.value) == Unassigned
  {
    DepartmentClean(e);
    DepartmentBlank(e);
  }

  lemma {:induction false} DepartmentClean(e: Employee)
    ensures DepartmentOf(e) != "" && Trim(DepartmentOf(e)) == DepartmentOf(e)
  {
    var dep := DepartmentOf(e);
    if e.department.Some? && Trim(e.department.value) != "" {
      var t := Trim(e.department.value);
      assert dep == t;
      TrimIdempotent(e.department.value);
    } else {
      assert dep == Unassigned;
      UnassignedTrimmed(dep);
    }
  }

  lemma {:induction false} DepartmentBlank(e: Employee)
    ensures DepartmentOf(e) == Unassigned <==>
              e.department.None? || AllJsSpace(e.department.value) || Trim(e.department.value) == Unassigned
  {
    if e.department.Some? {
      TrimEmpty(e.department.value);
    }
  }

  lemma {:induction false} UnassignedTrimmed(u: string)
    requires u == Unassigned
    ensures u != "" && Trim(u) == u
  {
    assert |u| == 10 && u[0] == 'U' && u[9] == 'd';
    TrimUntouched(u);
  }

  /** A wage written as text without any digit, point or minus sign reads
      as 0, which is not usable: such a row is invalid, not NaN. */
  lemma {:induction false} TextWithoutDigitsInvalid(e: Employee, idx: nat)
    requires e.wage.Text? && forall i :: 0 <= i < |e.wage.text| ==> !IsNumeral(e.wage.text[i])
    ensures RowOf(e, idx).wage == Finite(0.0) && !RowOf(e, idx).wageValid
  {
    ParseNoNumerals(e.wage.text);
  }

  // ---------------------------------------------------------------------
  // Valid and invalid rows
  // ---------------------------------------------------------------------

  predicate Usable(rs: seq<Row>)
  {
    forall i :: 0 <= i < |rs| ==> UsableWage(rs[i].wage)
  }

  predicate IsValid(r: Row)
  {
    r.wageValid
  }

  /** `rows.filter((r) => r.wageValid)`. */
  function ValidRows(rows: seq<Row>): (valid: seq<Row>)
    ensures WellFormed(rows) ==> Usable(valid)
  {
    Filter(rows, IsValid)
  }

  /** `rows.filter((r) => !r.wageValid)`. */
  function InvalidRows(rows: seq<Row>): seq<Row>
  {
    Reject(rows, IsValid)
  }

  /** Valid and invalid rows split the rows: each side holds only rows of
      its kind, every row is on exactly one side, so their sizes add up to
      the headcount. */
  lemma {:induction false} ValidPartition(rows: seq<Row>)
    ensures forall i :: 0 <= i < |ValidRows(rows)| ==> ValidRows(rows)[i].wageValid
    ensures forall i :: 0 <= i < |InvalidRows(rows)| ==> !InvalidRows(rows)[i].wageValid
    ensures multiset(ValidRows(rows)) + multiset(InvalidRows(rows)) == multiset(rows)
    ensures |ValidRows(rows)| + |InvalidRows(rows)| == |rows|
  {
    FilterPartition(rows, IsValid);
  }

  /** Every row with a valid wage is among the valid rows. */
  lemma {:induction false} ValidComplete(rows: seq<Row>, i: int)
    requires 0 <= i < |rows| && rows[i].wageValid
    ensures rows[i] in ValidRows(rows)
  {
    FilterComplete(rows, IsValid, i);
  }

  /** The wage of a row whose wage is finite; only such rows are ever
      summed or compared. */
  function WageOf(r: Row): real
  {
    if r.wage.Finite? then r.wage.value else 0.0
  }

  /** `rs.map((r) => r.wage)`. */
  function WagesOf(rs: seq<Row>): seq<real>
  {
    MapSeq(rs, WageOf)
  }

  // ---------------------------------------------------------------------
  // Headline figures
  // ---------------------------------------------------------------------

  datatype Kpis = Kpis(headcount: nat, validCount: nat, totalPayroll: real, avgWage: real)

  /** Headcount, valid count, the total of the valid wages and their
      mean (0 when no wage is valid). */
  function KpisOf(rows: seq<Row>): Kpis
  {
    var valid := ValidRows(rows);
    var total := Sum(WagesOf(valid));
    Kpis(|rows|, |valid|, total, if |valid| > 0 then total / |valid| as real else 0.0)
  }

  /** The payroll is positive exactly when some wage is valid, and the
      average lies between the smallest and the largest valid wage. */
  lemma {:induction false} KpisFacts(rows: seq<Row>)
    requires WellFormed(rows)
    ensures var k := KpisOf(rows);
            && k.validCount <= k.headcount
            && (k.totalPayroll > 0.0 <==> k.validCount > 0)
            && (k.validCount == 0 ==> k.avgWage == 0.0)
            && (k.validCount > 0 ==>
                  var ws := WagesOf(ValidRows(rows));
                  Min(ws) <= k.avgWage <= Max(ws))
  {
    ValidPartition(rows);
    PayrollFacts(ValidRows(rows));
  }

  /** Over rows with usable wages: the payroll is positive exactly when
      there is a row, and then the mean lies between the extremes. */
  lemma {:induction false} PayrollFacts(valid: seq<Row>)
    requires Usable(valid)
    ensures var ws := WagesOf(valid);
            && (Sum(ws) > 0.0 <==> |valid| > 0)
            && (|valid| > 0 ==> Min(ws) <= Sum(ws) / |valid| as real <= Max(ws))
  {
    var ws := WagesOf(valid);
    if |valid| > 0 {
      SumPositive(ws);
      MeanBetweenMinMax(ws);
    }
  }

  // ---------------------------------------------------------------------
  // Departments
  // ---------------------------------------------------------------------

  datatype Dept = Dept(department: string, headcount: nat, total: real, avg: real,
                       max: real, min: real, wages: seq<real>)

  function DepartmentName(r: Row): string
  {
    r.department
  }

  function DeptNames(vs: seq<Row>): seq<string>
  {
    MapSeq(vs, DepartmentName)
  }

  /** The wages of the rows of department `d`, in row order. */
  function WagesIn(vs: seq<Row>, d: string): seq<real>
  {
    if |vs| == 0 then []
    else
      var last := vs[|vs| - 1];
      WagesIn(vs[..|vs| - 1], d) + (if last.department == d then [WageOf(last)] else [])
  }

  /** A department has as many wages as rows. */
  lemma {:induction false} WagesInCount(vs: seq<Row>, d: string)
    ensures |WagesIn(vs, d)| == multiset(DeptNames(vs))[d]
  {
    if |vs| > 0 {
      var init := vs[..|vs| - 1];
      WagesInCount(init, d);
      MapSnoc(vs, |vs| - 1, DepartmentName);
      assert vs[..|vs|] == vs;
    }
  }

  /** Some row of department `d` is paid `w`. */
  predicate PaidIn(vs: seq<Row>, d: string, w: real)
  {
    exists i :: 0 <= i < |vs| && vs[i].department == d && WageOf(vs[i]) == w
  }

  /** Each wage of a department is the wage of one of its rows. */
  lemma {:induction false} WagesInMembers(vs: seq<Row>, d: string)
    ensures forall k :: 0 <= k < |WagesIn(vs, d)| ==> PaidIn(vs, d, WagesIn(vs, d)[k])
  {
    if |vs| > 0 {
      var n := |vs| - 1;
      var init := vs[..n];
      WagesInMembers(init, d);
      var prev := WagesIn(init, d);
      var ws := WagesIn(vs, d);
      assert ws == prev + (if vs[n].department == d then [WageOf(vs[n])] else []);
      forall k | 0 <= k < |ws|
        ensures PaidIn(vs, d, ws[k])
      {
        if k < |prev| {
          assert ws[k] == prev[k] && PaidIn(init, d, prev[k]);
          var i :| 0 <= i < |init| && init[i].department == d && WageOf(init[i]) == prev[k];
          assert vs[i] == init[i];
        } else {
          assert vs[n].department == d && WageOf(vs[n]) == ws[k];
        }
      }
    }
  }

  lemma {:induction false} WagesInNonEmpty(vs: seq<Row>, d: string)
    requires d in DeptNames(vs)
    ensures |WagesIn(vs, d)| > 0
  {
    WagesInCount(vs, d);
  }

  /** A department's record as the loop leaves it, before the average. */
  function Tally(vs: seq<Row>, d: string): (t: Dept)
    requires d in DeptNames(vs)
    ensures t.department == d && |t.wages| > 0
  {
    WagesInNonEmpty(vs, d);
    var ws := WagesIn(vs, d);
    Dept(d, |ws|, Sum(ws), 0.0, Max(ws), Min(ws), ws)
  }

  /** The record with `avg` filled in, as `deptAgg` maps it. */
  function Finish(t: Dept): Dept
  {
    t.(avg := if t.headcount > 0 then t.total / t.headcount as real else 0.0)
  }

  /** The records of the departments `ks`, in that order. */
  function DeptsFor(valid: seq<Row>, ks: seq<string>): (ds: seq<Dept>)
    requires forall k :: 0 <= k < |ks| ==> ks[k] in DeptNames(valid)
    ensures |ds| == |ks|
    ensures forall k :: 0 <= k < |ks| ==> ds[k].department == ks[k] && |ds[k].wages| > 0
  {
    seq(|ks|, k requires 0 <= k < |ks| => Finish(Tally(valid, ks[k])))
  }

  /** `deptAgg`: one record per department, in order of first appearance
      among the valid rows. */
  function DepartmentsOf(valid: seq<Row>): seq<Dept>
  {
    DeptsFor(valid, Dedup(DeptNames(valid)))
  }

  function JsMax(a: real, b: real): real
  {
    if b > a then b else a
  }

  function JsMin(a: real, b: real): real
  {
    if b < a then b else a
  }

  /** The loop body for one row: create the department's record on first
      sight, then count the row, add its wage to the total, widen the
      maximum and minimum with `Math.max` and `Math.min`, and push the
      wage. */
  function Counted(depts: map<string, Dept>, r: Row): map<string, Dept>
  {
    var d := r.department;
    var w := WageOf(r);
    var obj := if d in depts then depts[d] else Dept(d, 0, 0.0, 0.0, w, w, []);
    depts[d := obj.(headcount := obj.headcount + 1, total := obj.total + w,
                    max := JsMax(obj.max, w), min := JsMin(obj.min, w), wages := obj.wages + [w])]
  }

  /** The map after the loop has seen the rows `vs`. */
  function Aggregate(vs: seq<Row>): map<string, Dept>
  {
    if |vs| == 0 then map[] else Counted(Aggregate(vs[..|vs| - 1]), vs[|vs| - 1])
  }

  /** After the rows `vs`, the map has a record for exactly their
      departments, and each record is the department's tally. */
  lemma {:induction false} AggregateAt(vs: seq<Row>, d: string)
    ensures d in Aggregate(vs) <==> d in DeptNames(vs)
    ensures d in DeptNames(vs) ==> Aggregate(vs)[d] == Tally(vs, d)
  {
    if |vs| > 0 {
      var n := |vs| - 1;
      assert vs == vs[..n] + [vs[n]];
      AggregateAt(vs[..n], d);
      AggregateStep(vs[..n], vs[n], d);
    }
  }

  /** One more row keeps the map and the tallies in step. */
  lemma {:induction false} AggregateStep(init: seq<Row>, r: Row, d: string)
    requires d in Aggregate(init) <==> d in DeptNames(init)
    requires d in DeptNames(init) ==> Aggregate(init)[d] == Tally(init, d)
    ensures d in Aggregate(init + [r]) <==> d in DeptNames(init + [r])
    ensures d in DeptNames(init + [r]) ==> Aggregate(init + [r])[d] == Tally(init + [r], d)
  {
    NamesAppend(init, r);
    AggregateSnoc(init, r);
    CountedAt(Aggregate(init), r, d);
    if r.department == d {
      TallySnoc(init + [r], d);
    } else if d in DeptNames(init) {
      TallyOther(init + [r], d);
    }
  }

  lemma {:induction false} NamesAppend(init: seq<Row>, r: Row)
    ensures DeptNames(init + [r]) == DeptNames(init) + [r.department]
    ensures (init + [r])[..|init|] == init && (init + [r])[|init|] == r
  {
    assert (init + [r])[..|init|] == init;
    MapAppend(init, [r], DepartmentName);
  }

  /** A row of another department leaves the tally of `d` as it was. */
  lemma {:induction false} TallyOther(vs: seq<Row>, d: string)
    requires |vs| > 0 && vs[|vs| - 1].department != d
    requires d in DeptNames(vs[..|vs| - 1]) && d in DeptNames(vs)
    ensures Tally(vs, d) == Tally(vs[..|vs| - 1], d)
  {
    assert WagesIn(vs, d) == WagesIn(vs[..|vs| - 1], d);
  }

  /** The loop body touches only the row's department: it creates or
      updates that record and leaves the others alone. */
  lemma CountedAt(depts: map<string, Dept>, r: Row, d: string)
    ensures d in Counted(depts, r) <==> d in depts || d == r.department
    ensures d != r.department && d in depts ==> Counted(depts, r)[d] == depts[d]
    ensures d == r.department && d in depts ==>
              var t := depts[d];
              var w := WageOf(r);
              Counted(depts, r)[d] == t.(headcount := t.headcount + 1, total := t.total + w,
                                         max := JsMax(t.max, w), min := JsMin(t.min, w), wages := t.wages + [w])
    ensures d == r.department && d !in depts ==>
              var w := WageOf(r);
              Counted(depts, r)[d] == Dept(d, 1, w, 0.0, w, w, [w])
  {
    if d == r.department && d !in depts {
      assert [] + [WageOf(r)] == [WageOf(r)];
    }
  }

  /** The tally after one more row of department `d`: the record the loop
      body makes from the tally before it. */
  lemma {:induction false} TallySnoc(vs: seq<Row>, d: string)
    requires |vs| > 0 && vs[|vs| - 1].department == d
    requires d in DeptNames(vs)
    ensures var init := vs[..|vs| - 1];
            var w := WageOf(vs[|vs| - 1]);
            d in DeptNames(init) ==>
              var t := Tally(init, d);
              Tally(vs, d) == t.(headcount := t.headcount + 1, total := t.total + w,
                                 max := JsMax(t.max, w), min := JsMin(t.min, w), wages := t.wages + [w])
    ensures var init := vs[..|vs| - 1];
            var w := WageOf(vs[|vs| - 1]);
            d !in DeptNames(init) ==> Tally(vs, d) == Dept(d, 1, w, 0.0, w, w, [w])
  {
    var n := |vs| - 1;
    var init := vs[..n];
    var w := WageOf(vs[n]);
    var ws := WagesIn(init, d);
    assert WagesIn(vs, d) == ws + [w];
    SumSnoc(ws, w);
    if d in DeptNames(init) {
      assert (ws + [w])[..|ws|] == ws;
    } else {
      WagesInCount(init, d);
      assert ws + [w] == [w];
    }
  }

  /** The department loop over the valid rows, keeping the departments in
      the order a `Map` keeps its keys. */
  method Departments(rows: seq<Row>) returns (deptAgg: seq<Dept>)
    ensures deptAgg == DepartmentsOf(ValidRows(rows))
  {
    var valid := ValidRows(rows);
    var order: seq<string> := [];
    var depts: map<string, Dept> := map[];
    for i := 0 to |valid|
      invariant order == Dedup(DeptNames(valid[..i]))
      invariant depts == Aggregate(valid[..i])
    {
      var r := valid[i];
      DeptStep(valid, i);
      if r.department !in depts {
        order := order + [r.department];
      }
      depts := Counted(depts, r);
    }
    assert valid[..|valid|] == valid;
    RecordsOfAggregate(valid);
    deptAgg := Records(order, depts);
  }

  /** `Array.from(deptMap.values()).map(...)`: the records in the order
      their departments were first inserted, each with its average. */
  function Records(order: seq<string>, depts: map<string, Dept>): seq<Dept>
    requires forall k :: 0 <= k < |order| ==> order[k] in depts
  {
    seq(|order|, k requires 0 <= k < |order| => Finish(depts[order[k]]))
  }

  /** After all the rows, the records are the departments' tallies. */
  lemma {:induction false} RecordsOfAggregate(valid: seq<Row>)
    ensures var order := Dedup(DeptNames(valid));
            && (forall k :: 0 <= k < |order| ==> order[k] in Aggregate(valid))
            && Records(order, Aggregate(valid)) == DepartmentsOf(valid)
  {
    var order := Dedup(DeptNames(valid));
    forall k | 0 <= k < |order|
      ensures order[k] in Aggregate(valid) && Aggregate(valid)[order[k]] == Tally(valid, order[k])
    {
      AggregateAt(valid, order[k]);
    }
    DeptsForEach(valid, order, Records(order, Aggregate(valid)));
  }

  /** One more row: the map is updated by the loop body, and the
      department joins the order when it is new. */
  lemma {:induction false} DeptStep(valid: seq<Row>, i: int)
    requires 0 <= i < |valid|
    ensures Aggregate(valid[..i + 1]) == Counted(Aggregate(valid[..i]), valid[i])
    ensures valid[i].department in Aggregate(valid[..i]) <==> valid[i].department in DeptNames(valid[..i])
    ensures Dedup(DeptNames(valid[..i + 1]))
              == if valid[i].department in DeptNames(valid[..i]) then Dedup(DeptNames(valid[..i]))
                 else Dedup(DeptNames(valid[..i])) + [valid[i].department]
  {
    assert valid[..i + 1] == valid[..i] + [valid[i]];
    AggregateSnoc(valid[..i], valid[i]);
    AggregateAt(valid[..i], valid[i].department);
    NamesSnoc(valid[..i], valid[i]);
  }

  lemma {:induction false} AggregateSnoc(vs: seq<Row>, r: Row)
    ensures Aggregate(vs + [r]) == Counted(Aggregate(vs), r)
  {
    assert (vs + [r])[..|vs|] == vs;
  }

  lemma {:induction false} NamesSnoc(vs: seq<Row>, r: Row)
    ensures Dedup(DeptNames(vs + [r]))
              == if r.department in DeptNames(vs) then Dedup(DeptNames(vs)) else Dedup(DeptNames(vs)) + [r.department]
  {
    MapAppend(vs, [r], DepartmentName);
    DedupSnoc(DeptNames(vs), r.department);
  }

  /** A sequence holding each department's finished tally is the list of
      records. */
  lemma {:induction false} DeptsForEach(valid: seq<Row>, ks: seq<string>, ds: seq<Dept>)
    requires forall k :: 0 <= k < |ks| ==> ks[k] in DeptNames(valid)
    requires |ds| == |ks| && forall k :: 0 <= k < |ks| ==> ds[k] == Finish(Tally(valid, ks[k]))
    ensures ds == DeptsFor(valid, ks)
  {
  }

  function HeadcountSum(ds: seq<Dept>): nat
  {
    if |ds| == 0 then 0 else HeadcountSum(ds[..|ds| - 1]) + ds[|ds| - 1].headcount
  }

  /** Counting rows department by department. */
  lemma {:induction false} HeadcountOver(valid: seq<Row>, ks: seq<string>)
    requires forall k :: 0 <= k < |ks| ==> ks[k] in DeptNames(valid)
    ensures HeadcountSum(DeptsFor(valid, ks)) == CountOver(multiset(DeptNames(valid)), ks)
  {
    if |ks| > 0 {
      var n := |ks| - 1;
      HeadcountOver(valid, ks[..n]);
      assert DeptsFor(valid, ks)[..n] == DeptsFor(valid, ks[..n]);
      WagesInCount(valid, ks[n]);
    }
  }

  /** The department headcounts add up to the number of valid rows. */
  lemma {:induction false} HeadcountsCoverValid(valid: seq<Row>)
    ensures HeadcountSum(DepartmentsOf(valid)) == |valid|
  {
    var names := DeptNames(valid);
    HeadcountOver(valid, Dedup(names));
    CountPartition(names, Dedup(names));
  }

  /** The departments are distinct, and every valid row's department has
      a record. */
  lemma {:induction false} DepartmentsDistinct(valid: seq<Row>)
    ensures var ds := DepartmentsOf(valid);
            && (forall j, k :: 0 <= j < k < |ds| ==> ds[j].department != ds[k].department)
            && (forall i :: 0 <= i < |valid| ==> exists k :: 0 <= k < |ds| && ds[k].department == valid[i].department)
  {
    var names := DeptNames(valid);
    var order := Dedup(names);
    var ds := DepartmentsOf(valid);
    forall i | 0 <= i < |valid|
      ensures exists k :: 0 <= k < |ds| && ds[k].department == valid[i].department
    {
      assert names[i] in order;
      var k :| 0 <= k < |order| && order[k] == names[i];
      assert ds[k].department == order[k];
    }
  }

  /** One department's record: its headcount is the number of valid rows
      in it, its wages are theirs and add up to its total, and its minimum,
      average and maximum bound the wages as they should. */
  lemma {:induction false} DepartmentFacts(valid: seq<Row>, k: int)
    requires 0 <= k < |DepartmentsOf(valid)|
    ensures var d := DepartmentsOf(valid)[k];
            && d.headcount == |d.wages| == multiset(DeptNames(valid))[d.department] > 0
            && d.total == Sum(d.wages)
            && d.min == Min(d.wages) && d.max == Max(d.wages)
            && d.min <= d.avg <= d.max
            && (forall j :: 0 <= j < |d.wages| ==> PaidIn(valid, d.department, d.wages[j]))
  {
    var name := Dedup(DeptNames(valid))[k];
    assert DepartmentsOf(valid)[k] == Finish(Tally(valid, name));
    TallyFacts(valid, name);
  }

  lemma {:induction false} TallyFacts(vs: seq<Row>, name: string)
    requires name in DeptNames(vs)
    ensures var d := Finish(Tally(vs, name));
            && d.department == name
            && d.headcount == |d.wages| == multiset(DeptNames(vs))[name] > 0
            && d.total == Sum(d.wages)
            && d.min == Min(d.wages) && d.max == Max(d.wages)
            && d.min <= d.avg <= d.max
            && (forall j :: 0 <= j < |d.wages| ==> PaidIn(vs, name, d.wages[j]))
  {
    WagesInCount(vs, name);
    WagesInMembers(vs, name);
    MeanBetweenMinMax(WagesIn(vs, name));
  }

  /** The box-plot figures of a department: the quantiles of its sorted
      wages. */
  datatype Box = Box(department: string, min: real, p25: real, median: real, p75: real, max: real)

  function BoxOf(d: Dept): Box
    requires |d.wages| > 0
  {
    var s := SortAscending(d.wages);
    Box(d.department, Quantile(s, 0.0).value, Quantile(s, 0.25).value, Quantile(s, 0.5).value,
        Quantile(s, 0.75).value, Quantile(s, 1.0).value)
  }

  /** The box runs from the department's minimum to its maximum through
      non-decreasing quartiles. */
  lemma {:induction false} BoxFacts(valid: seq<Row>, k: int)
    requires 0 <= k < |DepartmentsOf(valid)|
    ensures var d := DepartmentsOf(valid)[k];
            var b := BoxOf(d);
            && b.min == d.min && b.max == d.max
            && b.min <= b.p25 <= b.median <= b.p75 <= b.max
  {
    var d := DepartmentsOf(valid)[k];
    DepartmentFacts(valid, k);
    var s := SortAscending(d.wages);
    SortedEnds(d.wages, s);
    QuantileEnds(s);
    QuantileMonotone(s, 0.0, 0.25);
    QuantileMonotone(s, 0.25, 0.5);
    QuantileMonotone(s, 0.5, 0.75);
    QuantileMonotone(s, 0.75, 1.0);
  }

  // ---------------------------------------------------------------------
  // Histogram and percentile input
  // ---------------------------------------------------------------------

  /** `valid.map((r) => r.wage).sort((a, b) => a - b)`. */
  function SortedWages(rows: seq<Row>): seq<real>
  {
    SortAscending(WagesOf(ValidRows(rows)))
  }

  /** The histogram of the page counts every valid wage once. */
  lemma {:induction false} HistogramCountsValid(rows: seq<Row>, counts: seq<nat>)
    requires var ws := SortedWages(rows);
             |counts| == Bins
             && forall b :: 0 <= b < Bins ==>
                  counts[b] == BinCount(ws, LowWage(ws), BinWidth(LowWage(ws), HighWage(ws)), b)
    ensures Total(counts) == |ValidRows(rows)|
  {
    var ws := SortedWages(rows);
    HistogramTotal(ws, LowWage(ws), BinWidth(LowWage(ws), HighWage(ws)), counts);
  }

  // ---------------------------------------------------------------------
  // Top earners, top versus rest and Pareto
  // ---------------------------------------------------------------------

  predicate Descending(rs: seq<Row>)
  {
    forall i, j :: 0 <= i < j < |rs| ==> WageOf(rs[i]) >= WageOf(rs[j])
  }

  /** Put `r` after every row paid at least as much. */
  function InsertDesc(r: Row, rs: seq<Row>): (out: seq<Row>)
    requires Descending(rs)
    ensures Descending(out)
    ensures multiset(out) == multiset(rs) + multiset{r}
  {
    if |rs| == 0 || WageOf(rs[0]) < WageOf(r) then
      [r] + rs
    else
      var t := InsertDesc(r, rs[1..]);
      assert rs == [rs[0]] + rs[1..];
      DescBelow(r, rs, t);
      [rs[0]] + t
  }

  lemma {:induction false} DescBelow(r: Row, rs: seq<Row>, t: seq<Row>)
    requires Descending(rs) && |rs| > 0 && WageOf(rs[0]) >= WageOf(r)
    requires Descending(t) && multiset(t) == multiset(rs[1..]) + multiset{r}
    ensures Descending([rs[0]] + t)
  {
    forall i | 0 <= i < |t|
      ensures WageOf(t[i]) <= WageOf(rs[0])
    {
      assert t[i] in multiset(t);
      if t[i] != r {
        assert t[i] in rs[1..];
      }
    }
  }

  /** `valid.slice().sort((a, b) => b.wage - a.wage)`: highest wage first,
      rows with equal wages in their original order. */
  function SortDesc(rs: seq<Row>): (out: seq<Row>)
    ensures Descending(out)
    ensures multiset(out) == multiset(rs) && |out| == |rs|
  {
    if |rs| == 0 then []
    else
      var n := |rs| - 1;
      var t := SortDesc(rs[..n]);
      assert multiset(rs) == multiset(rs[..n]) + multiset{rs[n]} by {
        assert rs == rs[..n] + [rs[n]];
      }
      InsertDesc(rs[n], t)
  }

  /** Sorting keeps the payroll, and sorted valid rows keep positive
      wages. */
  lemma {:induction false} SortedPayroll(valid: seq<Row>)
    ensures Sum(WagesOf(SortDesc(valid))) == Sum(WagesOf(valid))
    ensures Usable(valid) ==> forall i :: 0 <= i < |valid| ==> WagesOf(SortDesc(valid))[i] > 0.0
  {
    Rearranged(SortDesc(valid), valid);
  }

  /** Rearranged rows have the same payroll, and keep positive wages. */
  lemma {:induction false} Rearranged(a: seq<Row>, b: seq<Row>)
    requires multiset(a) == multiset(b)
    ensures Sum(WagesOf(a)) == Sum(WagesOf(b))
    ensures Usable(b) ==> forall i :: 0 <= i < |a| ==> WagesOf(a)[i] > 0.0
  {
    MapPermutation(a, b, WageOf);
    SumPermutation(WagesOf(a), WagesOf(b));
    if Usable(b) {
      forall i | 0 <= i < |a|
        ensures WageOf(a[i]) > 0.0
      {
        assert a[i] in multiset(b);
      }
    }
  }

  const TopN: nat := 10

  datatype TopVsRest = TopVsRest(top: real, rest: real)

  /** The wages of the ten best-paid rows against the wages of the others. */
  function TopVsRestOf(valid: seq<Row>): TopVsRest
  {
    var sorted := SortDesc(valid);
    var cut := if |sorted| < TopN then |sorted| else TopN;
    TopVsRest(Sum(WagesOf(sorted[..cut])), Sum(WagesOf(sorted[cut..])))
  }

  /** The two parts add up to the payroll; the top part has the ten
      largest wages (all of them when there are fewer), each at least as
      large as every wage of the rest. */
  lemma {:induction false} TopVsRestFacts(valid: seq<Row>)
    ensures var t := TopVsRestOf(valid);
            t.top + t.rest == Sum(WagesOf(valid))
    ensures var sorted := SortDesc(valid);
            var cut := if |valid| < TopN then |valid| else TopN;
            forall i, j :: 0 <= i < cut <= j < |sorted| ==> WageOf(sorted[i]) >= WageOf(sorted[j])
  {
    SortedPayroll(valid);
    var sorted := SortDesc(valid);
    SplitSum(sorted, if |sorted| < TopN then |sorted| else TopN);
  }

  /** Splitting the rows splits their payroll. */
  lemma {:induction false} SplitSum(rs: seq<Row>, cut: int)
    requires 0 <= cut <= |rs|
    ensures Sum(WagesOf(rs[..cut])) + Sum(WagesOf(rs[cut..])) == Sum(WagesOf(rs))
  {
    assert rs == rs[..cut] + rs[cut..];
    MapAppend(rs[..cut], rs[cut..], WageOf);
    SumAppend(WagesOf(rs[..cut]), WagesOf(rs[cut..]));
  }

  const ParetoN: nat := 15

  datatype ParetoPoint = ParetoPoint(name: string, wage: real, cumPct: real)

  /** `cum` as a percentage of `total`, or 0 when there is no payroll. */
  function Share(cum: real, total: real): real
  {
    if total != 0.0 then cum / total * 100.0 else 0.0
  }

  /** The running share of the payroll after the first `k + 1` rows. */
  function CumPct(sorted: seq<Row>, total: real, k: nat): real
    requires k < |sorted|
  {
    Share(Sum(WagesOf(sorted[..k + 1])), total)
  }

  /** The name shown for a row: its own, or "Emp " and its position. */
  function ParetoName(r: Row, pos: nat): string
  {
    if r.name != "" then r.name else EmpLabel(pos)
  }

  function ParetoPointAt(sorted: seq<Row>, total: real, k: nat): ParetoPoint
    requires k < |sorted|
  {
    ParetoPoint(ParetoName(sorted[k], k + 1), WageOf(sorted[k]), CumPct(sorted, total, k))
  }

  /** The stand-in name of a row without one: "Emp " and its position. */
  function EmpLabel(pos: nat): string
  {
    "Emp " + Decimal(pos)
  }

  /** The first fifteen of the sorted rows with the running total of
      their wages as a share of the payroll. */
  method Pareto(sorted: seq<Row>, total: real) returns (points: seq<ParetoPoint>)
    ensures |points| == if |sorted| < ParetoN then |sorted| else ParetoN
    ensures forall k :: 0 <= k < |points| ==> points[k] == ParetoPointAt(sorted, total, k)
  {
    var n := if |sorted| < ParetoN then |sorted| else ParetoN;
    var cum := 0.0;
    points := [];
    for idx := 0 to n
      invariant |points| == idx
      invariant cum == Sum(WagesOf(sorted[..idx]))
      invariant forall k :: 0 <= k < idx ==> points[k] == ParetoPointAt(sorted, total, k)
    {
      var r := sorted[idx];
      RunningSum(sorted, idx);
      cum := cum + WageOf(r);
      points := points + [ParetoPoint(ParetoName(r, idx + 1), WageOf(r), Share(cum, total))];
    }
  }

  /** One more row adds its wage to the running total. */
  lemma {:induction false} RunningSum(sorted: seq<Row>, idx: nat)
    requires idx < |sorted|
    ensures Sum(WagesOf(sorted[..idx])) + WageOf(sorted[idx]) == Sum(WagesOf(sorted[..idx + 1]))
  {
    MapSnoc(sorted, idx, WageOf);
    SumSnoc(WagesOf(sorted[..idx]), WageOf(sorted[idx]));
  }

  /** Over the sorted valid rows and their payroll, the running share
      rises strictly, stays within (0, 100], and reaches 100 at the last
      row. */
  lemma {:induction false} ParetoShare(valid: seq<Row>, k1: nat, k2: nat)
    requires Usable(valid)
    requires k1 < k2 < |valid|
    ensures var sorted := SortDesc(valid);
            var total := Sum(WagesOf(valid));
            && 0.0 < CumPct(sorted, total, k1) < CumPct(sorted, total, k2) <= 100.0
            && CumPct(sorted, total, |valid| - 1) == 100.0
  {
    SortedPayroll(valid);
    RunningShares(SortDesc(valid), Sum(WagesOf(valid)), k1, k2);
  }

  /** The running shares of rows with positive wages in their payroll. */
  lemma {:induction false} RunningShares(sorted: seq<Row>, total: real, k1: nat, k2: nat)
    requires forall i :: 0 <= i < |sorted| ==> WagesOf(sorted)[i] > 0.0
    requires total == Sum(WagesOf(sorted)) && k1 < k2 < |sorted|
    ensures 0.0 < CumPct(sorted, total, k1) < CumPct(sorted, total, k2) <= 100.0
    ensures CumPct(sorted, total, |sorted| - 1) == 100.0
  {
    PrefixShares(WagesOf(sorted), k1, k2);
    CumPctOfWages(sorted, total, k1);
    CumPctOfWages(sorted, total, k2);
    CumPctOfWages(sorted, total, |sorted| - 1);
  }

  lemma {:induction false} CumPctOfWages(sorted: seq<Row>, total: real, k: nat)
    requires k < |sorted|
    ensures CumPct(sorted, total, k) == if total != 0.0 then Sum(WagesOf(sorted)[..k + 1]) / total * 100.0 else 0.0
  {
    MapPrefix(sorted, k + 1, WageOf);
  }

  /** The running shares of positive numbers in their total. */
  lemma {:induction false} PrefixShares(ws: seq<real>, k1: nat, k2: nat)
    requires forall k :: 0 <= k < |ws| ==> ws[k] > 0.0
    requires k1 < k2 < |ws|
    ensures var total := Sum(ws);
            && total > 0.0
            && 0.0 < Sum(ws[..k1 + 1]) / total * 100.0 < Sum(ws[..k2 + 1]) / total * 100.0 <= 100.0
            && Sum(ws[..|ws|]) / total * 100.0 == 100.0
  {
    PrefixSumsRise(ws, 0, k1 + 1);
    PrefixSumsRise(ws, k1 + 1, k2 + 1);
    PrefixSumsRise(ws, k2 + 1, |ws|);
    assert ws[..0] == [] && ws[..|ws|] == ws;
    ShareOrder(Sum(ws[..k1 + 1]), Sum(ws[..k2 + 1]), Sum(ws));
  }

  /** Prefix sums of positive numbers rise strictly. */
  lemma {:induction false} PrefixSumsRise(ws: seq<real>, i: nat, j: nat)
    requires forall k :: 0 <= k < |ws| ==> ws[k] > 0.0
    requires i <= j <= |ws|
    ensures Sum(ws[..i]) <= Sum(ws[..j])
    ensures i < j ==> Sum(ws[..i]) < Sum(ws[..j])
    decreases j - i
  {
    if i < j {
      PrefixSumsRise(ws, i, j - 1);
      assert ws[..j][..j - 1] == ws[..j - 1];
    }
  }

  // ---------------------------------------------------------------------
  // Recipients
  // ---------------------------------------------------------------------

  predicate HasRecipient(r: Row)
  {
    |r.recipient| > 0
  }

  function RecipientOf(r: Row): string
  {
    r.recipient
  }

  datatype Coverage = Coverage(present: nat, missing: nat)

  /** Rows with a recipient, and the rest of the headcount. */
  function CoverageOf(rows: seq<Row>): Coverage
  {
    var present := |Filter(rows, HasRecipient)|;
    Coverage(present, |rows| - present)
  }

  /** The missing count is the number of rows without a recipient, so
      present and missing add up to the headcount. */
  lemma {:induction false} CoverageFacts(rows: seq<Row>)
    ensures CoverageOf(rows).present + CoverageOf(rows).missing == |rows|
    ensures CoverageOf(rows).missing == |Reject(rows, HasRecipient)|
    ensures forall i :: 0 <= i < |Reject(rows, HasRecipient)| ==> Reject(rows, HasRecipient)[i].recipient == ""
  {
    FilterPartition(rows, HasRecipient);
  }

  /** The recipients the counting loop sees, in row order. */
  function NamedRecipients(rows: seq<Row>): seq<string>
  {
    MapSeq(Filter(rows, HasRecipient), RecipientOf)
  }

  lemma {:induction false} NamedSnoc(rows: seq<Row>, n: int)
    requires 0 <= n < |rows|
    ensures NamedRecipients(rows[..n + 1])
              == NamedRecipients(rows[..n]) + (if rows[n].recipient != "" then [rows[n].recipient] else [])
  {
    FilterSnoc(rows, n, HasRecipient);
    var f := Filter(rows[..n], HasRecipient);
    MapAppend(f, if rows[n].recipient != "" then [rows[n]] else [], RecipientOf);
  }

  datatype RecipientCount = RecipientCount(recipient: string, count: nat)

  /** One more row naming `x`: its count goes up by one, starting from
      zero when the map has not seen it. */
  function Bumped(counts: map<string, nat>, x: string): map<string, nat>
  {
    counts[x := (if x in counts then counts[x] else 0) + 1]
  }

  /** The map after the counting loop has seen the rows `rows`. */
  function Counts(rows: seq<Row>): map<string, nat>
  {
    if |rows| == 0 then map[]
    else
      var c := Counts(rows[..|rows| - 1]);
      var x := rows[|rows| - 1].recipient;
      if x == "" then c else Bumped(c, x)
  }

  /** After the rows `rows`, the map counts exactly the recipients seen,
      each as often as it was named. */
  lemma {:induction false} CountsAt(rows: seq<Row>, x: string)
    ensures x in Counts(rows) <==> x in NamedRecipients(rows)
    ensures x in Counts(rows) ==> Counts(rows)[x] == multiset(NamedRecipients(rows))[x]
  {
    if |rows| > 0 {
      var n := |rows| - 1;
      CountsAt(rows[..n], x);
      NamedSnoc(rows, n);
      assert rows[..n + 1] == rows;
    }
  }

  /** `Array.from(recMap.entries())`: each recipient once, in order of
      first appearance, with the number of rows naming it. */
  function CountsOf(rows: seq<Row>): seq<RecipientCount>
  {
    var names := NamedRecipients(rows);
    var order := Dedup(names);
    seq(|order|, k requires 0 <= k < |order| => RecipientCount(order[k], multiset(names)[order[k]]))
  }

  /** The counting loop over the rows, skipping rows without a recipient. */
  method RecipientCounts(rows: seq<Row>) returns (entries: seq<RecipientCount>)
    ensures entries == CountsOf(rows)
  {
    var order: seq<string> := [];
    var counts: map<string, nat> := map[];
    for i := 0 to |rows|
      invariant order == Dedup(NamedRecipients(rows[..i]))
      invariant counts == Counts(rows[..i])
    {
      var x := rows[i].recipient;
      CountStep(rows, i);
      if x == "" {
        continue;
      }
      if x !in counts {
        order := order + [x];
      }
      counts := Bumped(counts, x);
    }
    assert rows[..|rows|] == rows;
    EntriesOfCounts(rows);
    entries := Entries(order, counts);
  }

  /** The map's entries in the order their keys were first inserted. */
  function Entries(order: seq<string>, counts: map<string, nat>): seq<RecipientCount>
    requires forall k :: 0 <= k < |order| ==> order[k] in counts
  {
    seq(|order|, k requires 0 <= k < |order| => RecipientCount(order[k], counts[order[k]]))
  }

  /** One more row: the map and the order change only when the row names
      a recipient, and the order grows only by a recipient not seen yet. */
  lemma {:induction false} CountStep(rows: seq<Row>, i: int)
    requires 0 <= i < |rows|
    ensures var x := rows[i].recipient;
            && Counts(rows[..i + 1]) == (if x == "" then Counts(rows[..i]) else Bumped(Counts(rows[..i]), x))
            && (x in Counts(rows[..i]) <==> x in NamedRecipients(rows[..i]))
            && Dedup(NamedRecipients(rows[..i + 1]))
                 == if x == "" || x in NamedRecipients(rows[..i]) then Dedup(NamedRecipients(rows[..i]))
                    else Dedup(NamedRecipients(rows[..i])) + [x]
  {
    assert rows[..i + 1] == rows[..i] + [rows[i]];
    CountsSnoc(rows[..i], rows[i]);
    CountsAt(rows[..i], rows[i].recipient);
    RecipientsSnoc(rows[..i], rows[i]);
  }

  lemma {:induction false} CountsSnoc(rs: seq<Row>, r: Row)
    ensures Counts(rs + [r]) == if r.recipient == "" then Counts(rs) else Bumped(Counts(rs), r.recipient)
  {
    assert (rs + [r])[..|rs|] == rs;
  }

  lemma {:induction false} RecipientsSnoc(rs: seq<Row>, r: Row)
    ensures Dedup(NamedRecipients(rs + [r]))
              == if r.recipient == "" || r.recipient in NamedRecipients(rs) then Dedup(NamedRecipients(rs))
                 else Dedup(NamedRecipients(rs)) + [r.recipient]
  {
    NamedAppend(rs, r);
    if r.recipient != "" {
      DedupSnoc(NamedRecipients(rs), r.recipient);
    } else {
      assert NamedRecipients(rs + [r]) == NamedRecipients(rs);
    }
  }

  lemma {:induction false} NamedAppend(rs: seq<Row>, r: Row)
    ensures NamedRecipients(rs + [r]) == NamedRecipients(rs) + (if r.recipient != "" then [r.recipient] else [])
  {
    var t := rs + [r];
    assert t[..|rs|] == rs && t[..|rs| + 1] == t;
    NamedSnoc(t, |rs|);
  }

  /** After all the rows, the entries are the recipients with their
      numbers of appearances. */
  lemma {:induction false} EntriesOfCounts(rows: seq<Row>)
    ensures var order := Dedup(NamedRecipients(rows));
            && (forall k :: 0 <= k < |order| ==> order[k] in Counts(rows))
            && Entries(order, Counts(rows)) == CountsOf(rows)
  {
    var order := Dedup(NamedRecipients(rows));
    var counts := Counts(rows);
    var ms := multiset(NamedRecipients(rows));
    forall k | 0 <= k < |order|
      ensures order[k] in counts && counts[order[k]] == ms[order[k]]
    {
      CountsAt(rows, order[k]);
    }
    var es := Entries(order, counts);
    assert |es| == |CountsOf(rows)|;
    forall k | 0 <= k < |es|
      ensures es[k] == CountsOf(rows)[k]
    {
    }
  }

  /** The entries name non-empty recipients, each once. */
  lemma {:induction false} CountsOfFacts(rows: seq<Row>)
    ensures Apart(CountsOf(rows), RecipientKey)
    ensures forall k :: 0 <= k < |CountsOf(rows)| ==> CountsOf(rows)[k].recipient != ""
  {
    var names := NamedRecipients(rows);
    var order := Dedup(names);
    var entries := CountsOf(rows);
    assert forall j :: 0 <= j < |entries| ==> entries[j].recipient == order[j];
    forall k | 0 <= k < |entries|
      ensures entries[k].recipient != ""
    {
      var i :| 0 <= i < |names| && names[i] == order[k];
      assert Filter(rows, HasRecipient)[i].recipient == names[i];
    }
  }

  predicate Repeated(e: RecipientCount)
  {
    e.count > 1
  }

  function RecipientKey(e: RecipientCount): string
  {
    e.recipient
  }

  /** `duplicateRecipients`: the first ten recipients named by more than
      one row. */
  function DuplicateRecipients(rows: seq<Row>): seq<RecipientCount>
  {
    FirstRepeated(CountsOf(rows))
  }

  /** `.filter(([, c]) => c > 1).slice(0, 10)` */
  function FirstRepeated(entries: seq<RecipientCount>): seq<RecipientCount>
  {
    var all := Filter(entries, Repeated);
    if |all| > 10 then all[..10] else all
  }

  /** At most ten entries, each repeated and taken from `entries`, apart
      when the entries are; when fewer than ten are kept, none was
      dropped. */
  lemma {:induction false} FirstRepeatedFacts(entries: seq<RecipientCount>)
    requires Apart(entries, RecipientKey)
    ensures var dups := FirstRepeated(entries);
            && |dups| <= 10
            && (forall k :: 0 <= k < |dups| ==> dups[k] in entries && dups[k].count >= 2)
            && Apart(dups, RecipientKey)
            && (|dups| < 10 ==> forall j :: 0 <= j < |entries| && entries[j].count >= 2 ==> entries[j] in dups)
  {
    var all := Filter(entries, Repeated);
    var dups := FirstRepeated(entries);
    FilterApart(entries, Repeated, RecipientKey);
    forall k | 0 <= k < |dups|
      ensures dups[k] in entries && dups[k].count >= 2
    {
      assert dups[k] == all[k];
    }
    if |dups| < 10 {
      assert dups == all;
      forall j | 0 <= j < |entries| && entries[j].count >= 2
        ensures entries[j] in dups
      {
        FilterComplete(entries, Repeated, j);
      }
    }
  }

  /** At most ten entries; each a non-empty recipient named by that many
      rows, at least two; no recipient twice; and when fewer than ten are
      listed, every recipient named twice or more is among them with its
      count. */
  lemma {:induction false} DuplicateFacts(rows: seq<Row>)
    ensures var dups := DuplicateRecipients(rows);
            var names := NamedRecipients(rows);
            && |dups| <= 10
            && (forall k :: 0 <= k < |dups| ==>
                  dups[k].recipient != "" && dups[k].count >= 2 && dups[k].count == multiset(names)[dups[k].recipient])
            && Apart(dups, RecipientKey)
            && (|dups| < 10 ==> forall i :: 0 <= i < |names| && multiset(names)[names[i]] >= 2 ==>
                  RecipientCount(names[i], multiset(names)[names[i]]) in dups)
  {
    var names := NamedRecipients(rows);
    var entries := CountsOf(rows);
    CountsOfFacts(rows);
    FirstRepeatedFacts(entries);
    var dups := DuplicateRecipients(rows);
    forall k | 0 <= k < |dups|
      ensures dups[k].recipient != "" && dups[k].count == multiset(names)[dups[k].recipient]
    {
      var j :| 0 <= j < |entries| && entries[j] == dups[k];
    }
    if |dups| < 10 {
      forall i | 0 <= i < |names| && multiset(names)[names[i]] >= 2
        ensures RecipientCount(names[i], multiset(names)[names[i]]) in dups
      {
        var order := Dedup(names);
        var j :| 0 <= j < |order| && order[j] == names[i];
        assert entries[j] == RecipientCount(names[i], multiset(names)[names[i]]);
      }
    }
  }
}
