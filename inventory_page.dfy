/** The inventory page: its two filtered queries and its expiry status column. */
module InventoryPage {
  import opened Common
  import opened Strings
  import opened Templates
  import opened PageCommon

  // ---------------------------------------------------------------------------
  // Current inventory tab (column lists abridged).

  const InvSelect: Sql := Join2("SELECT i.product_code,", " i.expiry_date")
  const InvFrom: Sql := Join2(" FROM inventory", " i JOIN products p")
  const InvOn: Sql := Join2(" ON i.product_code", " = p.product_code")
  const InvWhere: Sql := Join2(" WHERE", " (i.product_code ILIKE ")
  const InvOrName: Sql := Join2(" OR p.product_name", " ILIKE ")
  const InvClose: Sql := ") "
  const InvOrder: Sql := Join2(" ORDER BY p.department,", " p.product_name")
  const PDepartment: Sql := "p.department"

  function InvHead(): Sql
  {
    Join2(Join2(InvSelect, InvFrom), Join2(InvOn, InvWhere))
  }

  /** The current-inventory query for a given ILIKE pattern: the pattern twice,
      then the selected departments. */
  function InventoryTemplateFor(pattern: string, selected: seq<string>): (t: seq<Piece>)
    ensures Plain(t)
    ensures HoleValues(t) == [Str(pattern), Str(pattern)] + (if ShowsAll(selected) then [] else Strs(selected))
  {
    var filters := Lead(InvClose, Cat(InFilterTemplate(PDepartment, selected), Text(InvOrder)));
    assert HoleValues(filters) == if ShowsAll(selected) then [] else Strs(selected);
    Pair(InvHead(), Str(pattern), InvOrName, Str(pattern), filters)
  }

  /** The current-inventory query for what is typed in the search box. */
  function InventoryTemplate(searchTerm: string, selected: seq<string>): (t: seq<Piece>)
    ensures Plain(t)
    ensures HoleValues(t) == [Str(SearchPattern(searchTerm)), Str(SearchPattern(searchTerm))] +
                             (if ShowsAll(selected) then [] else Strs(selected))
  {
    InventoryTemplateFor(SearchPattern(searchTerm), selected)
  }

  /** The current-inventory tab up to the read: the f-string query and the
      parameter list, built as the page builds them. */
  method InventoryQuery(searchTerm: string, selected: seq<string>) returns (query: string, params: seq<Value>)
    ensures query == Render(InventoryTemplate(searchTerm, selected))
    ensures params == HoleValues(InventoryTemplate(searchTerm, selected))
  {
    var departmentFilter := InFilter(PDepartment, selected);
    InFilterMatches(PDepartment, selected);
    query := InvHead() + ("%s" + (InvOrName + ("%s" + (InvClose + (departmentFilter + InvOrder)))));
    var searchParam := SearchPattern(searchTerm);
    params := [Str(searchParam), Str(searchParam)];
    if departmentFilter != "" && "All" !in selected {
      params := params + Strs(selected);
    }
  }

  // ---------------------------------------------------------------------------
  // Transactions tab.

  const TxSelect: Sql := Join2("SELECT t.transaction_id,", " t.quantity")
  const TxFrom: Sql := Join2(" FROM", " inventory_transactions t")
  const TxJoin: Sql := " JOIN products p"
  const TxOn: Sql := Join2(" ON t.product_code", " = p.product_code")
  const TxBetween: Sql := Join2(" WHERE t.transaction_date", " BETWEEN ")
  const TxAnd: Sql := " AND "
  const Space: Sql := " "
  const TxOrder: Sql := Join2(" ORDER BY", " t.transaction_date DESC")
  const TransactionType: Sql := "transaction_type"

  function TxHead(): Sql
  {
    Join2(Join2(Join2(TxSelect, TxFrom), Join2(TxJoin, TxOn)), TxBetween)
  }

  /** The optional filters of the transactions query: the type when one is
      chosen, then the selected departments. */
  function TxFilterTemplate(transactionType: string, selected: seq<string>): (t: seq<Piece>)
    ensures Plain(t)
    ensures HoleValues(t) == (if transactionType == "All" then [] else [Str(transactionType)]) +
                             (if ShowsAll(selected) then [] else Strs(selected))
  {
    var typeFilter := EqFilterTemplate(TransactionType, transactionType);
    var departments := Cat(InFilterTemplate(PDepartment, selected), Text(TxOrder));
    var rest := Lead(Space, departments);
    assert HoleValues(rest) == if ShowsAll(selected) then [] else Strs(selected);
    Cat(typeFilter, rest)
  }

  /** The filter text the page splices in is the filter template's rendering. */
  lemma TxFilterText(transactionType: string, selected: seq<string>)
    ensures Render(TxFilterTemplate(transactionType, selected)) ==
            EqFilter(TransactionType, transactionType) + (Space + (InFilter(PDepartment, selected) + TxOrder))
  {
    InFilterMatches(PDepartment, selected);
    EqFilterMatches(TransactionType, transactionType);
  }

  /** The transactions query: the date range, then the type when one is chosen,
      then the selected departments. */
  function TransactionsTemplate(startDate: int, endDate: int, transactionType: string, selected: seq<string>)
    : (t: seq<Piece>)
    ensures Plain(t)
    ensures HoleValues(t) == [Day(startDate), Day(endDate)] +
                             ((if transactionType == "All" then [] else [Str(transactionType)]) +
                              (if ShowsAll(selected) then [] else Strs(selected)))
  {
    var filters := Lead(Space, TxFilterTemplate(transactionType, selected));
    assert HoleValues(filters) == HoleValues(TxFilterTemplate(transactionType, selected));
    Pair(TxHead(), Day(startDate), TxAnd, Day(endDate), filters)
  }

  /** The transactions tab's parameter list: the dates, then what each filter
      appends. */
  method TransactionsParams(startDate: int, endDate: int, transactionType: string, selected: seq<string>)
    returns (params: seq<Value>)
    ensures params == HoleValues(TransactionsTemplate(startDate, endDate, transactionType, selected))
  {
    var dates := [Day(startDate), Day(endDate)];
    var typeValues := EqValues(TransactionType, transactionType);
    var departmentValues := InValues(PDepartment, selected);
    params := dates;
    params := params + typeValues;
    params := params + departmentValues;
    AppendAfter(dates, typeValues, departmentValues);
  }

  /** The transactions tab up to the read. */
  method TransactionsQuery(startDate: int, endDate: int, transactionType: string, selected: seq<string>)
    returns (query: string, params: seq<Value>)
    ensures query == Render(TransactionsTemplate(startDate, endDate, transactionType, selected))
    ensures params == HoleValues(TransactionsTemplate(startDate, endDate, transactionType, selected))
  {
    var departmentFilter := InFilter(PDepartment, selected);
    var typeFilter := EqFilter(TransactionType, transactionType);
    query := TxHead() + ("%s" + (TxAnd + ("%s" + (Space + (typeFilter + (Space + (departmentFilter + TxOrder)))))));
    TxFilterText(transactionType, selected);
    params := TransactionsParams(startDate, endDate, transactionType, selected);
  }

  // ---------------------------------------------------------------------------
  // Expiry status column.

  /** `get_expiry_status`: below 0 expired, up to 30 critical, up to 90 warning,
      otherwise (or with no expiry date) OK. */
  function GetExpiryStatus(days: Option<int>): (r: ExpiryLevel)
    ensures r == Expired <==> days.Some? && days.value < 0
    ensures r == Critical <==> days.Some? && 0 <= days.value <= 30
    ensures r == Warning <==> days.Some? && 30 < days.value <= 90
    ensures r == OK <==> days.None? || days.value > 90
  {
    ExpiryBucket(days, 30, 90)
  }

  /** Fewer days left never means a less urgent status. */
  lemma ExpiryStatusMonotone(d: int, e: int)
    requires d <= e
    ensures Urgency(GetExpiryStatus(Some(e))) <= Urgency(GetExpiryStatus(Some(d)))
  {
  }
}
