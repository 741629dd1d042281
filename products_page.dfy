/** The products page: its filtered products list. */
module ProductsPage {
  import opened Common
  import opened Strings
  import opened Templates
  import opened PageCommon

  // Query text abridged to its shape: the fixed parts, the two search
  // placeholders and the three optional filters in the page's order.
  const ProdSelect: Sql := Join2("SELECT product_code,", " product_name")
  const ProdFrom: Sql := Join2(" FROM products", " WHERE (")
  const ProdLike: Sql := Join2("product_code", " ILIKE ")
  const ProdOrName: Sql := Join2(" OR product_name", " ILIKE ")
  const ProdClose: Sql := ") "
  const ProdSpace: Sql := " "
  const ProdOrder: Sql := Join2(" ORDER BY department,", " product_name")
  const Department: Sql := "department"
  const Supplier: Sql := "supplier"
  const Status: Sql := "status"

  function ProdHead(): Sql
  {
    Join2(Join2(ProdSelect, ProdFrom), ProdLike)
  }

  /** The three optional filters: departments, then suppliers, then status. */
  function ProductFilterTemplate(departments: seq<string>, suppliers: seq<string>, status: string)
    : (t: seq<Piece>)
    ensures Plain(t)
    ensures HoleValues(t) == (if ShowsAll(departments) then [] else Strs(departments)) +
                             ((if ShowsAll(suppliers) then [] else Strs(suppliers)) +
                              (if status == "All" then [] else [Str(status)]))
  {
    var tail := Lead(ProdSpace, Cat(EqFilterTemplate(Status, status), Text(ProdOrder)));
    assert HoleValues(tail) == if status == "All" then [] else [Str(status)];
    var middle := Lead(ProdSpace, Cat(InFilterTemplate(Supplier, suppliers), tail));
    assert HoleValues(middle) == (if ShowsAll(suppliers) then [] else Strs(suppliers)) + HoleValues(tail);
    Cat(InFilterTemplate(Department, departments), middle)
  }

  /** The filter text the page splices in is the filter template's rendering. */
  lemma ProductFilterText(departments: seq<string>, suppliers: seq<string>, status: string)
    ensures Render(ProductFilterTemplate(departments, suppliers, status)) ==
            InFilter(Department, departments) +
            (ProdSpace + (InFilter(Supplier, suppliers) + (ProdSpace + (EqFilter(Status, status) + ProdOrder))))
  {
    InFilterMatches(Department, departments);
    InFilterMatches(Supplier, suppliers);
    EqFilterMatches(Status, status);
  }

  /** The products list query: the search pattern twice, then the selected
      departments, the selected suppliers and the chosen status. */
  function ProductsTemplate(searchTerm: string, departments: seq<string>, suppliers: seq<string>, status: string)
    : (t: seq<Piece>)
    ensures Plain(t)
    ensures HoleValues(t) == [Str(SearchPattern(searchTerm)), Str(SearchPattern(searchTerm))] +
                             ((if ShowsAll(departments) then [] else Strs(departments)) +
                              ((if ShowsAll(suppliers) then [] else Strs(suppliers)) +
                               (if status == "All" then [] else [Str(status)])))
  {
    var pattern := Str(SearchPattern(searchTerm));
    var filters := Lead(ProdClose, ProductFilterTemplate(departments, suppliers, status));
    assert HoleValues(filters) == HoleValues(ProductFilterTemplate(departments, suppliers, status));
    Pair(ProdHead(), pattern, ProdOrName, pattern, filters)
  }

  /** The products list's parameter list: the search pattern twice, then what
      each filter appends. */
  method ProductsParams(searchTerm: string, departments: seq<string>, suppliers: seq<string>, status: string)
    returns (params: seq<Value>)
    ensures params == HoleValues(ProductsTemplate(searchTerm, departments, suppliers, status))
  {
    var searchParam := SearchPattern(searchTerm);
    var departmentValues := InValues(Department, departments);
    var supplierValues := InValues(Supplier, suppliers);
    var statusValues := EqValues(Status, status);
    params := [Str(searchParam), Str(searchParam)];
    params := params + departmentValues;
    params := params + supplierValues;
    params := params + statusValues;
    AppendRight([Str(searchParam), Str(searchParam)], departmentValues, supplierValues, statusValues);
  }

  /** The products list up to the read: the f-string query and the parameter
      list, built as the page builds them. */
  method ProductsQuery(searchTerm: string, departments: seq<string>, suppliers: seq<string>, status: string)
    returns (query: string, params: seq<Value>)
    ensures query == Render(ProductsTemplate(searchTerm, departments, suppliers, status))
    ensures params == HoleValues(ProductsTemplate(searchTerm, departments, suppliers, status))
  {
    var departmentFilter := InFilter(Department, departments);
    var supplierFilter := InFilter(Supplier, suppliers);
    var statusFilter := EqFilter(Status, status);
    query := ProdHead() + ("%s" + (ProdOrName + ("%s" + (ProdClose +
             (departmentFilter + (ProdSpace + (supplierFilter + (ProdSpace + (statusFilter + ProdOrder)))))))));
    ProductFilterText(departments, suppliers, status);
    params := ProductsParams(searchTerm, departments, suppliers, status);
  }
}
