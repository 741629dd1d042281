/** The filter fragments the dashboard pages splice into their queries, and the
    link between a page's query text and its parameter list.

    Every page builds its query text with f-strings and its parameter list with
    `append`/`extend`, separately. Each page below also gives the template the two
    come from; `Matched` then says that the text has one `%s` per value and that
    the data-access layer binds the i-th placeholder to the i-th value. */
module PageCommon {
  import opened Common
  import opened Strings
  import opened Templates
  import opened Database

  /** A multiselect that filters nothing: "All" is among the choices, or nothing
      is chosen (a department list that failed to load leaves nothing chosen). */
  predicate ShowsAll(selected: seq<string>)
  {
    "All" in selected || |selected| == 0
  }

  const And: Sql := "AND "
  const In: Sql := " IN ("
  const Close: Sql := ")"
  const Comma: Sql := ", "
  const Equals: Sql := " = "

  /** `f"AND {column} IN ({', '.join(['%s' for _ in selected])})"`, or nothing. */
  function InFilter(column: Sql, selected: seq<string>): string
  {
    if ShowsAll(selected) then ""
    else And + column + In + Join(Repeat("%s", |selected|), Comma) + Close
  }

  /** `f"AND {column} = %s"` unless "All" is chosen. */
  function EqFilter(column: Sql, selected: string): string
  {
    if selected == "All" then "" else And + column + Equals + "%s"
  }

  /** One placeholder per value, separated by `, `. */
  function InHoles(vs: seq<Value>): seq<Piece>
    decreases |vs|
  {
    if |vs| <= 1 then (if |vs| == 0 then [] else [Hole(vs[0])])
    else [Hole(vs[0]), Lit(Comma)] + InHoles(vs[1..])
  }

  /** The placeholder list is plain, its values are `vs` in order, and its text is
      `', '.join(['%s'] * len(vs))`. */
  lemma {:induction false} InHolesShape(vs: seq<Value>)
    ensures Plain(InHoles(vs)) && HoleValues(InHoles(vs)) == vs
    ensures Render(InHoles(vs)) == Join(Repeat("%s", |vs|), Comma)
    decreases |vs|
  {
    if |vs| > 1 {
      InHolesShape(vs[1..]);
      var t, rest := InHoles(vs), InHoles(vs[1..]);
      assert t[1..][1..] == rest;
      var parts := Repeat("%s", |vs|);
      assert parts[1..] == Repeat("%s", |vs| - 1);
    } else if |vs| == 1 {
      assert InHoles(vs)[1..] == [];
      assert Repeat("%s", 1) == ["%s"];
    }
  }

  /** The department-style filter as a template: no pieces when it filters nothing,
      otherwise one placeholder per selected value. */
  function InFilterTemplate(column: Sql, selected: seq<string>): (t: seq<Piece>)
    ensures Plain(t)
    ensures HoleValues(t) == if ShowsAll(selected) then [] else Strs(selected)
  {
    if ShowsAll(selected) then []
    else
      InHolesShape(Strs(selected));
      Cat(Text(Join2(Join2(And, column), In)), Cat(InHoles(Strs(selected)), Text(Close)))
  }

  /** The filter text is the template's rendering; it is empty exactly when it
      filters nothing, and otherwise has exactly one `%s` per selected value. */
  lemma InFilterMatches(column: Sql, selected: seq<string>)
    ensures InFilter(column, selected) == Render(InFilterTemplate(column, selected))
    ensures InFilter(column, selected) == "" <==> ShowsAll(selected)
    ensures Count(InFilter(column, selected), "%s") == if ShowsAll(selected) then 0 else |selected|
  {
    if !ShowsAll(selected) {
      InHolesShape(Strs(selected));
    }
    PlaceholderCount(InFilterTemplate(column, selected));
  }

  /** The single-value filter as a template. */
  function EqFilterTemplate(column: Sql, selected: string): (t: seq<Piece>)
    ensures Plain(t)
    ensures HoleValues(t) == if selected == "All" then [] else [Str(selected)]
  {
    if selected == "All" then []
    else Cat(Text(Join2(Join2(And, column), Equals)), Param(Str(selected)))
  }

  /** The filter text is the template's rendering; it is empty exactly for "All"
      and otherwise has one `%s`. */
  lemma EqFilterMatches(column: Sql, selected: string)
    ensures EqFilter(column, selected) == Render(EqFilterTemplate(column, selected))
    ensures EqFilter(column, selected) == "" <==> selected == "All"
    ensures Count(EqFilter(column, selected), "%s") == if selected == "All" then 0 else 1
  {
    PlaceholderCount(EqFilterTemplate(column, selected));
  }

  /** The values a page appends for a multiselect filter:
      `if filter and "All" not in selected: params.extend(selected)`. */
  function InValues(column: Sql, selected: seq<string>): (r: seq<Value>)
    ensures r == if ShowsAll(selected) then [] else Strs(selected)
  {
    InFilterMatches(column, selected);
    if InFilter(column, selected) != "" && "All" !in selected then Strs(selected) else []
  }

  /** The value a page appends for a single-value filter: `if filter: params.append(selected)`. */
  function EqValues(column: Sql, selected: string): (r: seq<Value>)
    ensures r == if selected == "All" then [] else [Str(selected)]
  {
    EqFilterMatches(column, selected);
    if EqFilter(column, selected) != "" then [Str(selected)] else []
  }

  /** `f"%{term}%" if term else "%%"`: an ILIKE pattern that matches anything when
      the search box is empty. */
  function SearchPattern(term: string): (r: string)
    ensures |r| >= 2 && r[0] == '%' && r[|r| - 1] == '%'
    ensures r[1..|r| - 1] == term
  {
    if term != "" then "%" + term + "%" else "%%"
  }

  /** A page query whose text and parameter list come from the same template: the
      text has one `%s` per value, and `load_data` (as corrected) binds the i-th
      placeholder as `:param<i>` to the i-th value, leaving no `%s` behind. */
  lemma Matched(t: seq<Piece>)
    requires Plain(t)
    ensures Count(Render(t), "%s") == |HoleValues(t)|
    ensures LoadPrepare(Render(t), Positional(HoleValues(t))) ==
              Prepared(RenderFrom(t, 0, |HoleValues(t)|), ParamMap(HoleValues(t)))
    ensures Lacks(RenderFrom(t, 0, |HoleValues(t)|), '%')
  {
    PlaceholderCount(t);
    RewriteBindsInOrder(t, |HoleValues(t)|);
    RenderFromAllBound(t, 0, |HoleValues(t)|);
  }

  /** Days until expiry bucketed as the pages do, from most to least urgent. */
  datatype ExpiryLevel = Expired | Critical | Warning | OK

  function Urgency(l: ExpiryLevel): nat
  {
    match l
    case Expired => 3
    case Critical => 2
    case Warning => 1
    case OK => 0
  }

  /** The bucketing of days until expiry against a critical bound and a warning
      bound. A missing value (`NaN`) fails every comparison and lands in `OK`. */
  function ExpiryBucket(days: Option<int>, critical: int, warning: int): ExpiryLevel
  {
    match days
    case None => OK
    case Some(d) =>
      if d < 0 then Expired
      else if d <= critical then Critical
      else if d <= warning then Warning
      else OK
  }
}
