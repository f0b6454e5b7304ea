/** The Collection Report: the status of each invoice row, the summary
    figures, and the filter conditions of its query. The query itself runs
    in the database; its result rows are the input here. */
module CollectionReport {
  import opened Wrappers
  import opened Frappe
  import opened Records

  /** A row's due date as the query returns it: none, a date, or text still
      to be parsed (blank text counts as no date). */
  datatype DueDate = NoDueDate | DueDay(day: Date) | DueText(text: string)

  datatype StatusLabel = FullyPaid | Pending | Overdue | PartiallyPaid

  /** One row of the query's result, with the two columns the report adds. */
  datatype ReportRow = ReportRow(
    invoiceNo: string,
    dueDate: DueDate,
    invoiceAmount: real,
    paidAmount: real,
    outstanding: real,
    status: Option<StatusLabel>,
    lastRemark: string)

  /** The row is due strictly before `today`; text is read with `parse`. */
  predicate DueBefore(d: DueDate, today: Date, parse: string -> Date)
  {
    match d
    case NoDueDate => false
    case DueDay(day) => day < today
    case DueText(text) => text != "" && parse(text) < today
  }

  /** `get_status`: a settled row is Fully Paid; an unsettled row with
      nothing paid is Pending; a part-paid row past its due date is Overdue;
      any other part-paid row is Partially Paid. */
  function GetStatus(row: ReportRow, today: Date, parse: string -> Date): (s: StatusLabel)
    ensures s == FullyPaid <==> row.outstanding <= 0.0
    ensures s == Pending <==> row.outstanding > 0.0 && row.paidAmount == 0.0
    ensures s == Overdue <==> row.outstanding > 0.0 && row.paidAmount != 0.0 && DueBefore(row.dueDate, today, parse)
    ensures s == PartiallyPaid <==>
            row.outstanding > 0.0 && row.paidAmount != 0.0 && !DueBefore(row.dueDate, today, parse)
  {
    if row.outstanding <= 0.0 then FullyPaid
    else if row.paidAmount == 0.0 then Pending
    else if DueBefore(row.dueDate, today, parse) then Overdue
    else PartiallyPaid
  }

  /** An unpaid row past its due date is Pending, not Overdue: nothing paid
      is checked first. */
  lemma UnpaidPastDueIsPending(row: ReportRow, today: Date, parse: string -> Date)
    requires row.outstanding > 0.0 && row.paidAmount == 0.0 && DueBefore(row.dueDate, today, parse)
    ensures GetStatus(row, today, parse) == Pending
  {
  }

  /** A row without a due date, or with a blank one, is never Overdue. */
  lemma NoDueDateNeverOverdue(row: ReportRow, today: Date, parse: string -> Date)
    requires row.dueDate == NoDueDate || row.dueDate == DueText("")
    ensures GetStatus(row, today, parse) != Overdue
  {
  }

  /** Adding the status and the last remark to every row, in place; the
      remark lookup is a parameter. */
  method EnrichRows(data: seq<ReportRow>, today: Date, parse: string -> Date, lastRemark: string -> string)
    returns (rows: seq<ReportRow>)
    ensures |rows| == |data|
    ensures forall i :: 0 <= i < |rows| ==>
              rows[i] == data[i].(status := Some(GetStatus(data[i], today, parse)), lastRemark := lastRemark(data[i].invoiceNo))
  {
    rows := data;
    var i := 0;
    while i < |rows|
      invariant 0 <= i <= |rows| == |data|
      invariant forall k :: 0 <= k < i ==>
                  rows[k] == data[k].(status := Some(GetStatus(data[k], today, parse)), lastRemark := lastRemark(data[k].invoiceNo))
      invariant forall k :: i <= k < |rows| ==> rows[k] == data[k]
    {
      var row := rows[i];
      row := row.(status := Some(GetStatus(row, today, parse)));
      row := row.(lastRemark := lastRemark(row.invoiceNo));
      rows := rows[i := row];
      i := i + 1;
    }
  }

  // ---------------- summary ----------------

  datatype Column = InvoiceAmount | PaidAmount | Outstanding

  function Amount(row: ReportRow, c: Column): real
  {
    match c
    case InvoiceAmount => row.invoiceAmount
    case PaidAmount => row.paidAmount
    case Outstanding => row.outstanding
  }

  /** A column's sum over all rows. */
  function Total(rows: seq<ReportRow>, c: Column): (t: real)
    ensures (forall i :: 0 <= i < |rows| ==> Amount(rows[i], c) >= 0.0) ==> t >= 0.0
  {
    if rows == [] then 0.0 else Total(rows[..|rows| - 1], c) + Amount(rows[|rows| - 1], c)
  }

  /** The outstanding amount summed over the rows marked Overdue. */
  function OverdueAmount(rows: seq<ReportRow>): (a: real)
    ensures (forall i :: 0 <= i < |rows| ==> rows[i].status != Some(Overdue)) ==> a == 0.0
  {
    if rows == [] then 0.0
    else OverdueAmount(rows[..|rows| - 1])
         + (if rows[|rows| - 1].status == Some(Overdue) then rows[|rows| - 1].outstanding else 0.0)
  }

  /** The outstanding amount summed over the rows that still owe something. */
  function OpenAmount(rows: seq<ReportRow>): real
  {
    if rows == [] then 0.0
    else OpenAmount(rows[..|rows| - 1])
         + (if rows[|rows| - 1].outstanding > 0.0 then rows[|rows| - 1].outstanding else 0.0)
  }

  datatype Kpi = Kpi(caption: string, value: real, format: Option<string>, indicator: string)

  /** `get_summary`: five figures in a fixed order. */
  function GetSummary(rows: seq<ReportRow>): (kpis: seq<Kpi>)
    ensures |kpis| == 5
    ensures kpis[0].caption == "Total Invoices" && kpis[0].value == |rows| as real
    ensures kpis[1].caption == "Total Invoice Amount" && kpis[1].value == Total(rows, InvoiceAmount)
    ensures kpis[2].caption == "Total Collected" && kpis[2].value == Total(rows, PaidAmount)
    ensures kpis[3].caption == "Total Outstanding" && kpis[3].value == Total(rows, Outstanding)
    ensures kpis[4].caption == "Overdue Amount" && kpis[4].value == OverdueAmount(rows)
  {
    [Kpi("Total Invoices", |rows| as real, None, "Blue"),
     Kpi("Total Invoice Amount", Total(rows, InvoiceAmount), Some("Currency"), "Blue"),
     Kpi("Total Collected", Total(rows, PaidAmount), Some("Currency"), "Green"),
     Kpi("Total Outstanding", Total(rows, Outstanding), Some("Currency"), "Red"),
     Kpi("Overdue Amount", OverdueAmount(rows), Some("Currency"), "Orange")]
  }

  /** On rows whose Overdue mark comes from `get_status`, the overdue
      figure is never negative and never more than what is still owed. */
  lemma {:induction false} OverdueWithinOpen(rows: seq<ReportRow>)
    requires forall i :: 0 <= i < |rows| && rows[i].status == Some(Overdue) ==> rows[i].outstanding > 0.0
    ensures 0.0 <= OverdueAmount(rows) <= OpenAmount(rows)
  {
    if rows != [] {
      OverdueWithinOpen(rows[..|rows| - 1]);
    }
  }

  /** Enriched rows meet the condition of `OverdueWithinOpen`. */
  lemma EnrichedOverdueOwes(data: seq<ReportRow>, rows: seq<ReportRow>, today: Date, parse: string -> Date)
    requires |rows| == |data|
    requires forall i :: 0 <= i < |rows| ==> rows[i].status == Some(GetStatus(data[i], today, parse))
                                             && rows[i].outstanding == data[i].outstanding
    ensures forall i :: 0 <= i < |rows| && rows[i].status == Some(Overdue) ==> rows[i].outstanding > 0.0
  {
  }

  /** When each row owes its invoice amount less what was paid, as the
      query computes it, the outstanding total is the invoiced total less
      the collected total. */
  lemma {:induction false} TotalsBalance(rows: seq<ReportRow>)
    requires forall i :: 0 <= i < |rows| ==> rows[i].outstanding == rows[i].invoiceAmount - rows[i].paidAmount
    ensures Total(rows, Outstanding) == Total(rows, InvoiceAmount) - Total(rows, PaidAmount)
  {
    if rows != [] {
      TotalsBalance(rows[..|rows| - 1]);
    }
  }

  // ---------------- the query's filter conditions ----------------

  datatype Filters = Filters(
    project: Option<string>,
    block: Option<string>,
    unit: Option<string>,
    customer: Option<string>,
    milestone: Option<string>,
    fromDate: Option<string>,
    toDate: Option<string>)

  /** The query's named parameters. */
  datatype Param = ProjectParam | BlockParam | UnitParam | CustomerParam | MilestoneParam | FromDate | ToDate

  /** The parameters a single-value filter compares against; the two dates
      only enter the range condition. */
  type FilterParam = p: Param | !p.FromDate? && !p.ToDate? witness ProjectParam

  /** A condition of the query's WHERE clause. */
  datatype Condition = DocStatusSubmitted | FilterEquals(param: FilterParam) | DueDateBetween

  /** The SQL text of a condition. */
  function Sql(c: Condition): (sql: string)
    ensures sql != ""
  {
    match c
    case DocStatusSubmitted => "si.docstatus = 1"
    case DueDateBetween => "si.due_date BETWEEN %(from_date)s AND %(to_date)s"
    case FilterEquals(ProjectParam) => "bo.project = %(project)s"
    case FilterEquals(BlockParam) => "bo.block = %(block)s"
    case FilterEquals(UnitParam) => "bo.unit = %(unit)s"
    case FilterEquals(CustomerParam) => "si.customer = %(customer)s"
    case FilterEquals(MilestoneParam) => "sii.description = %(milestone)s"
  }

  /** The filter a parameter takes its value from. */
  function FilterValue(f: Filters, p: Param): Option<string>
  {
    match p
    case ProjectParam => f.project
    case BlockParam => f.block
    case UnitParam => f.unit
    case CustomerParam => f.customer
    case MilestoneParam => f.milestone
    case FromDate => f.fromDate
    case ToDate => f.toDate
  }

  /** A given filter shows up as its condition and its value, an absent
      one as neither. */
  predicate Mirrors(f: Filters, p: FilterParam, conditions: seq<Condition>, values: map<Param, string>)
  {
    && (FilterEquals(p) in conditions <==> Present(FilterValue(f, p)))
    && (p in values <==> Present(FilterValue(f, p)))
    && (p in values ==> values[p] == FilterValue(f, p).value)
  }

  function Given(v: Option<string>): nat
  {
    if Present(v) then 1 else 0
  }

  /** The conditions and values of `get_data`'s query. The docstatus
      condition comes first; each given single-value filter adds its
      condition and its value; the due-date range and its two values are
      added only when both ends are given. */
  method BuildConditions(f: Filters) returns (conditions: seq<Condition>, values: map<Param, string>)
    ensures |conditions| >= 1 && conditions[0] == DocStatusSubmitted
    ensures "si.docstatus = 1" <= WhereClause(conditions)
    ensures Mirrors(f, ProjectParam, conditions, values) && Mirrors(f, BlockParam, conditions, values)
    ensures Mirrors(f, UnitParam, conditions, values) && Mirrors(f, CustomerParam, conditions, values)
    ensures Mirrors(f, MilestoneParam, conditions, values)
    ensures DueDateBetween in conditions <==> Present(f.fromDate) && Present(f.toDate)
    ensures (FromDate in values <==> Present(f.fromDate) && Present(f.toDate))
            && (ToDate in values <==> Present(f.fromDate) && Present(f.toDate))
    ensures Present(f.fromDate) && Present(f.toDate) ==>
              values[FromDate] == f.fromDate.value && values[ToDate] == f.toDate.value
    ensures |conditions| == 1 + Given(f.project) + Given(f.block) + Given(f.unit) + Given(f.customer)
                              + Given(f.milestone) + (if Present(f.fromDate) && Present(f.toDate) then 1 else 0)
  {
    conditions, values := SingleValueFilters(f);
    if Present(f.fromDate) && Present(f.toDate) {
      conditions := conditions + [DueDateBetween];
      values := values[FromDate := f.fromDate.value];
      values := values[ToDate := f.toDate.value];
    }
    assert Sql(conditions[0]) <= WhereClause(conditions);
  }

  /** The docstatus condition followed by the five single-value filters,
      in the order `get_data` tests them; the date range is not touched. */
  method SingleValueFilters(f: Filters) returns (conditions: seq<Condition>, values: map<Param, string>)
    ensures |conditions| >= 1 && conditions[0] == DocStatusSubmitted
    ensures Mirrors(f, ProjectParam, conditions, values) && Mirrors(f, BlockParam, conditions, values)
    ensures Mirrors(f, UnitParam, conditions, values) && Mirrors(f, CustomerParam, conditions, values)
    ensures Mirrors(f, MilestoneParam, conditions, values)
    ensures DueDateBetween !in conditions && Untouched(FromDate, conditions, values) && Untouched(ToDate, conditions, values)
    ensures |conditions| == 1 + Given(f.project) + Given(f.block) + Given(f.unit) + Given(f.customer) + Given(f.milestone)
  {
    var c3, v3 := PlacementFilters(f);
    var c4, v4 := AddFilter(f, CustomerParam, c3, v3);
    assert Same(ProjectParam, c3, v3, c4, v4) && Same(BlockParam, c3, v3, c4, v4);
    assert Same(UnitParam, c3, v3, c4, v4) && Same(MilestoneParam, c3, v3, c4, v4);
    var c5, v5 := AddFilter(f, MilestoneParam, c4, v4);
    assert Same(ProjectParam, c4, v4, c5, v5) && Same(BlockParam, c4, v4, c5, v5);
    assert Same(UnitParam, c4, v4, c5, v5) && Same(CustomerParam, c4, v4, c5, v5);
    assert Same(FromDate, c3, v3, c4, v4) && Same(FromDate, c4, v4, c5, v5);
    assert Same(ToDate, c3, v3, c4, v4) && Same(ToDate, c4, v4, c5, v5);
    conditions, values := c5, v5;
    assert conditions[0] == c3[0];
  }

  /** The docstatus condition and the project, block and unit filters. */
  method PlacementFilters(f: Filters) returns (conditions: seq<Condition>, values: map<Param, string>)
    ensures |conditions| >= 1 && conditions[0] == DocStatusSubmitted
    ensures Mirrors(f, ProjectParam, conditions, values) && Mirrors(f, BlockParam, conditions, values)
    ensures Mirrors(f, UnitParam, conditions, values)
    ensures Untouched(CustomerParam, conditions, values) && Untouched(MilestoneParam, conditions, values)
    ensures DueDateBetween !in conditions && Untouched(FromDate, conditions, values) && Untouched(ToDate, conditions, values)
    ensures |conditions| == 1 + Given(f.project) + Given(f.block) + Given(f.unit)
  {
    var c0: seq<Condition>, v0: map<Param, string> := [DocStatusSubmitted], map[];
    var c1, v1 := AddFilter(f, ProjectParam, c0, v0);
    assert Same(BlockParam, c0, v0, c1, v1) && Same(UnitParam, c0, v0, c1, v1);
    var c2, v2 := AddFilter(f, BlockParam, c1, v1);
    assert Same(ProjectParam, c1, v1, c2, v2) && Same(UnitParam, c1, v1, c2, v2);
    var c3, v3 := AddFilter(f, UnitParam, c2, v2);
    assert Same(ProjectParam, c2, v2, c3, v3) && Same(BlockParam, c2, v2, c3, v3);
    assert Same(CustomerParam, c0, v0, c1, v1) && Same(CustomerParam, c1, v1, c2, v2) && Same(CustomerParam, c2, v2, c3, v3);
    assert Same(MilestoneParam, c0, v0, c1, v1) && Same(MilestoneParam, c1, v1, c2, v2) && Same(MilestoneParam, c2, v2, c3, v3);
    assert Same(FromDate, c0, v0, c1, v1) && Same(FromDate, c1, v1, c2, v2) && Same(FromDate, c2, v2, c3, v3);
    assert Same(ToDate, c0, v0, c1, v1) && Same(ToDate, c1, v1, c2, v2) && Same(ToDate, c2, v2, c3, v3);
    conditions, values := c3, v3;
    assert conditions[0] == c0[0];
  }

  /** One `if filters.get(...)` step: a given filter appends its
      condition and records its value; nothing else changes. */
  method AddFilter(f: Filters, p: FilterParam, conditions: seq<Condition>, values: map<Param, string>)
    returns (conditions': seq<Condition>, values': map<Param, string>)
    requires Untouched(p, conditions, values)
    ensures Mirrors(f, p, conditions', values')
    ensures |conditions'| == |conditions| + Given(FilterValue(f, p))
    ensures conditions <= conditions'
    ensures forall q :: q != p ==> Same(q, conditions, values, conditions', values')
    ensures DueDateBetween in conditions' <==> DueDateBetween in conditions
  {
    conditions', values' := conditions, values;
    if Present(FilterValue(f, p)) {
      conditions' := conditions + [FilterEquals(p)];
      values' := values[p := FilterValue(f, p).value];
    }
  }

  /** Parameter `q` has the same condition and value before and after. */
  predicate Same(q: Param, c: seq<Condition>, v: map<Param, string>, c': seq<Condition>, v': map<Param, string>)
  {
    && (!q.FromDate? && !q.ToDate? ==> (FilterEquals(q) in c' <==> FilterEquals(q) in c))
    && (q in v' <==> q in v)
    && (q in v ==> v'[q] == v[q])
  }

  predicate Untouched(p: Param, conditions: seq<Condition>, values: map<Param, string>)
  {
    (!p.FromDate? && !p.ToDate? ==> FilterEquals(p) !in conditions) && p !in values
  }

  /** The WHERE clause: the conditions' SQL joined with AND. It is empty
      only without conditions and starts with the first condition. */
  function WhereClause(conditions: seq<Condition>): (w: string)
    ensures w == "" <==> conditions == []
    ensures conditions != [] ==> Sql(conditions[0]) <= w
  {
    if conditions == [] then ""
    else if |conditions| == 1 then Sql(conditions[0])
    else
      var init := conditions[..|conditions| - 1];
      var front := WhereClause(init);
      assert init[0] == conditions[0];
      front + " AND " + Sql(conditions[|conditions| - 1])
  }
}
