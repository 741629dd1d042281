/** The quality control page: its four filtered queries and the status colouring. */
module QualityPage {
  import opened Common
  import opened Strings
  import opened Templates
  import opened PageCommon

  const QcStatus: Sql := "qc.status"
  const QctDepartment: Sql := "qct.department"
  const Space: Sql := " "
  const And: Sql := " AND "

  /** The two optional filters every quality query may carry: the status, then
      the departments (either may be empty). */
  function QcFilterTemplate(status: string, selected: seq<string>, tail: Sql): (t: seq<Piece>)
    ensures Plain(t)
    ensures HoleValues(t) == (if status == "All" then [] else [Str(status)]) +
                             (if ShowsAll(selected) then [] else Strs(selected))
  {
    var departments := Lead(Space, Cat(InFilterTemplate(QctDepartment, selected), Text(tail)));
    assert HoleValues(departments) == if ShowsAll(selected) then [] else Strs(selected);
    Cat(EqFilterTemplate(QcStatus, status), departments)
  }

  /** The department filter alone, followed by the rest of the query. */
  function DepartmentTemplate(selected: seq<string>, tail: Sql): (t: seq<Piece>)
    ensures Plain(t)
    ensures HoleValues(t) == if ShowsAll(selected) then [] else Strs(selected)
  {
    Cat(InFilterTemplate(QctDepartment, selected), Text(tail))
  }

  // ---------------------------------------------------------------------------
  // Quality checks tab (column list abridged).

  const QcSelect: Sql := Join2("SELECT qc.check_id,", " qc.status")
  const QcFrom: Sql := Join2(" FROM quality_checks", " qc")
  const QcJoin: Sql := Join2(" JOIN", " received_products rp")
  const QcBetween: Sql := Join2(" WHERE qc.checked_at", " BETWEEN ")
  const QcSearch: Sql := Join2(" AND (qc.tracking_id", " ILIKE ")
  const QcOrName: Sql := Join2(" OR p.product_name", " ILIKE ")
  const QcOrCode: Sql := Join2(" OR p.product_code", " ILIKE ")
  const QcClose: Sql := ") "
  const QcOrder: Sql := Join2(" ORDER BY", " qc.checked_at DESC")

  function QcHead(): Sql
  {
    Join2(Join2(QcSelect, QcFrom), Join2(QcJoin, QcBetween))
  }

  /** The search part: the pattern three times, then the filters. */
  function SearchTemplate(pattern: string, filters: seq<Piece>): (t: seq<Piece>)
    ensures Plain(t) <==> Plain(filters)
    ensures HoleValues(t) == [Str(pattern), Str(pattern), Str(pattern)] + HoleValues(filters)
  {
    var p := Str(pattern);
    var last := Lead(QcOrCode, Slot(p, Lead(QcClose, filters)));
    assert HoleValues(last) == [p] + HoleValues(filters);
    AppendAfter([p, p], [p], HoleValues(filters));
    assert [p, p] + [p] == [p, p, p];
    Pair(QcSearch, p, QcOrName, p, last)
  }

  /** The quality checks query: the date range, the search pattern three times,
      then the status when one is chosen, then the selected departments. */
  function QualityChecksTemplate(startDate: int, endDate: int, searchTerm: string, status: string,
                                 selected: seq<string>): (t: seq<Piece>)
    ensures Plain(t)
    ensures var p := Str(SearchPattern(searchTerm));
      HoleValues(t) == [Day(startDate), Day(endDate)] +
                       ([p, p, p] + ((if status == "All" then [] else [Str(status)]) +
                                     (if ShowsAll(selected) then [] else Strs(selected))))
  {
    var p := Str(SearchPattern(searchTerm));
    var filters := QcFilterTemplate(status, selected, QcOrder);
    var search := SearchTemplate(SearchPattern(searchTerm), filters);
    Pair(QcHead(), Day(startDate), And, Day(endDate), search)
  }

  /** The filter text the page splices in is the filter template's rendering. */
  lemma QcFilterText(status: string, selected: seq<string>, tail: Sql)
    ensures Render(QcFilterTemplate(status, selected, tail)) ==
            EqFilter(QcStatus, status) + (Space + (InFilter(QctDepartment, selected) + tail))
  {
    InFilterMatches(QctDepartment, selected);
    EqFilterMatches(QcStatus, status);
  }

  /** The quality checks tab's parameter list: dates, the pattern three times,
      then what each filter appends. */
  method QualityChecksParams(startDate: int, endDate: int, searchTerm: string, status: string, selected: seq<string>)
    returns (params: seq<Value>)
    ensures params == HoleValues(QualityChecksTemplate(startDate, endDate, searchTerm, status, selected))
  {
    var searchParam := SearchPattern(searchTerm);
    var statusValues := EqValues(QcStatus, status);
    var departmentValues := InValues(QctDepartment, selected);
    var dates := [Day(startDate), Day(endDate)];
    var patterns := [Str(searchParam), Str(searchParam), Str(searchParam)];
    params := dates + patterns;
    params := params + statusValues;
    params := params + departmentValues;
    AppendRight(dates, patterns, statusValues, departmentValues);
  }

  /** The quality checks tab up to the read. */
  method QualityChecksQuery(startDate: int, endDate: int, searchTerm: string, status: string, selected: seq<string>)
    returns (query: string, params: seq<Value>)
    ensures query == Render(QualityChecksTemplate(startDate, endDate, searchTerm, status, selected))
    ensures params == HoleValues(QualityChecksTemplate(startDate, endDate, searchTerm, status, selected))
  {
    var statusFilter := EqFilter(QcStatus, status);
    var departmentFilter := InFilter(QctDepartment, selected);
    var filters := statusFilter + (Space + (departmentFilter + QcOrder));
    query := QcHead() + ("%s" + (And + ("%s" + (QcSearch + ("%s" + (QcOrName + ("%s" +
             (QcOrCode + ("%s" + (QcClose + filters))))))))));
    QcFilterText(status, selected, QcOrder);
    params := QualityChecksParams(startDate, endDate, searchTerm, status, selected);
  }

  // ---------------------------------------------------------------------------
  // Check types tab.

  const CtSelect: Sql := Join2("SELECT check_id,", " check_name")
  const CtFrom: Sql := Join2(" FROM", " quality_check_types")
  const CtWhere: Sql := " WHERE 1=1 "
  const CtOrder: Sql := Join2(" ORDER BY", " department, check_name")

  /** The check types query: only the selected departments. */
  function CheckTypesTemplate(selected: seq<string>): (t: seq<Piece>)
    ensures Plain(t)
    ensures HoleValues(t) == if ShowsAll(selected) then [] else Strs(selected)
  {
    Lead(Join2(Join2(CtSelect, CtFrom), CtWhere), DepartmentTemplate(selected, CtOrder))
  }

  /** The check types tab up to the read. */
  method CheckTypesQuery(selected: seq<string>) returns (query: string, params: seq<Value>)
    ensures query == Render(CheckTypesTemplate(selected))
    ensures params == HoleValues(CheckTypesTemplate(selected))
  {
    var departmentFilter := InFilter(QctDepartment, selected);
    InFilterMatches(QctDepartment, selected);
    query := Join2(Join2(CtSelect, CtFrom), CtWhere) + (departmentFilter + CtOrder);
    params := [];
    if departmentFilter != "" && "All" !in selected {
      params := params + Strs(selected);
    }
  }

  // ---------------------------------------------------------------------------
  // Analytics tab: the pass-rate and per-department queries share one list.

  const PrSelect: Sql := Join2("SELECT DATE_TRUNC(", "'day', checked_at)")
  const PrFrom: Sql := Join2(" FROM quality_checks", " qc")
  const PrJoin: Sql := Join2(" JOIN", " quality_check_types qct")
  const PrBetween: Sql := Join2(" WHERE checked_at", " BETWEEN ")
  const PrGroup: Sql := Join2(" GROUP BY", " check_date")
  const DeptSelect: Sql := Join2("SELECT", " qct.department")
  const DeptBetween: Sql := Join2(" WHERE qc.checked_at", " BETWEEN ")
  const DeptGroup: Sql := Join2(" GROUP BY qct", ".department")

  /** A date-range analytics query: the start and end, then the departments. */
  function RangeTemplate(head: Sql, startDate: int, endDate: int, selected: seq<string>, tail: Sql)
    : (t: seq<Piece>)
    ensures Plain(t)
    ensures HoleValues(t) == [Day(startDate), Day(endDate)] + (if ShowsAll(selected) then [] else Strs(selected))
  {
    var filters := Lead(Space, DepartmentTemplate(selected, tail));
    assert HoleValues(filters) == if ShowsAll(selected) then [] else Strs(selected);
    Pair(head, Day(startDate), And, Day(endDate), filters)
  }

  function PassRateHead(): Sql
  {
    Join2(Join2(PrSelect, PrFrom), Join2(PrJoin, PrBetween))
  }

  function DepartmentHead(): Sql
  {
    Join2(Join2(DeptSelect, PrFrom), Join2(PrJoin, DeptBetween))
  }

  /** The analytics tab up to its two reads: one parameter list, built once and
      passed to both queries, matches each of them. */
  method AnalyticsQueries(startDate: int, endDate: int, selected: seq<string>)
    returns (passRateQuery: string, departmentQuery: string, params: seq<Value>)
    ensures passRateQuery == Render(RangeTemplate(PassRateHead(), startDate, endDate, selected, PrGroup))
    ensures departmentQuery == Render(RangeTemplate(DepartmentHead(), startDate, endDate, selected, DeptGroup))
    ensures params == HoleValues(RangeTemplate(PassRateHead(), startDate, endDate, selected, PrGroup))
    ensures params == HoleValues(RangeTemplate(DepartmentHead(), startDate, endDate, selected, DeptGroup))
  {
    var departmentFilter := InFilter(QctDepartment, selected);
    passRateQuery := PassRateHead() + ("%s" + (And + ("%s" + (Space + (departmentFilter + PrGroup)))));
    RangeText(PassRateHead(), startDate, endDate, selected, PrGroup);
    params := RangeParams(startDate, endDate, selected);
    departmentQuery := DepartmentHead() + ("%s" + (And + ("%s" + (Space + (departmentFilter + DeptGroup)))));
    RangeText(DepartmentHead(), startDate, endDate, selected, DeptGroup);
  }

  /** The shared list: the dates, then the departments when they filter. */
  method RangeParams(startDate: int, endDate: int, selected: seq<string>) returns (params: seq<Value>)
    ensures forall head: Sql, tail: Sql :: params == HoleValues(RangeTemplate(head, startDate, endDate, selected, tail))
  {
    var departmentFilter := InFilter(QctDepartment, selected);
    InFilterMatches(QctDepartment, selected);
    params := [Day(startDate), Day(endDate)];
    if departmentFilter != "" && "All" !in selected {
      params := params + Strs(selected);
    }
  }

  /** A range query's text is its template's rendering. */
  lemma RangeText(head: Sql, startDate: int, endDate: int, selected: seq<string>, tail: Sql)
    ensures Render(RangeTemplate(head, startDate, endDate, selected, tail)) ==
            head + ("%s" + (And + ("%s" + (Space + (InFilter(QctDepartment, selected) + tail)))))
  {
    InFilterMatches(QctDepartment, selected);
  }

  // ---------------------------------------------------------------------------
  // Status colouring.

  /** `highlight_status`: a fixed style for each of the three known outcomes,
      none for anything else (including "N/A"). */
  function HighlightStatus(status: string): (style: string)
    ensures style == "" <==> status !in {"PASSED", "FAILED", "PENDING"}
  {
    if status == "PASSED" then "background-color: #C8E6C9; color: #2E7D32"
    else if status == "FAILED" then "background-color: #FFCDD2; color: #C62828"
    else if status == "PENDING" then "background-color: #FFF9C4; color: #F57F17"
    else ""
  }

  /** The three outcomes are told apart by their style. */
  lemma HighlightDistinct(a: string, b: string)
    requires HighlightStatus(a) != "" && HighlightStatus(a) == HighlightStatus(b)
    ensures a == b
  {
  }
}
