/** The data-access layer: how a query and its parameters are turned into SQLAlchemy
    text with binds, how a read degrades to an empty table, how single statements
    and all-or-nothing transactions run against the database, and the two invoice
    reducers built on reads.

    The database itself is abstract: a state `S` and a function `run` that executes
    one prepared statement against it, failing or giving the new state and, for a
    SELECT, the rows. Reads see the database through `read`, which fails or gives a
    table. */
module Database {
  import opened Common
  import opened Strings
  import opened Templates

  /** The parameters handed over with a query: none, a list, a dict, or some other
      Python value, truthy or not. */
  datatype Params =
    | NoParams
    | Positional(values: seq<Value>)
    | Named(binds: map<string, Value>)
    | OtherShape(truthy: bool)

  /** Python truthiness of the parameters (`if params:`). */
  predicate ParamsGiven(params: Params)
  {
    match params
    case NoParams => false
    case Positional(vs) => |vs| > 0
    case Named(m) => |m| > 0
    case OtherShape(b) => b
  }

  /** SQLAlchemy text with the values of its `:name` binds. */
  datatype Prepared = Prepared(text: string, binds: map<string, Value>)

  type Row = map<string, Value>
  type Table = seq<Row>

  /** A column of a row; a column the row lacks reads as NULL. */
  function Column(row: Row, name: string): Value
  {
    if name in row then row[name] else Null
  }

  // ---------------------------------------------------------------------------
  // Positional parameters.

  /** The query after the first `n` steps of the rewrite loop: step i replaces the
      leftmost `%s` still present by `:param<i>`. */
  function RewriteUpTo(query: string, n: nat): string
  {
    if n == 0 then query else ReplaceFirst(RewriteUpTo(query, n - 1), "%s", ":" + ParamName(n - 1))
  }

  lemma ParamNameFresh(n: nat)
    ensures forall i :: 0 <= i < n ==> ParamName(i) != ParamName(n)
  {
    forall i | 0 <= i < n
      ensures ParamName(i) != ParamName(n)
    {
      if ParamName(i) == ParamName(n) {
        ParamNameInjective(i, n);
      }
    }
  }

  /** The bind dictionary of a parameter list: exactly the keys `param0` ...
      `param<n-1>`, the i-th bound to the i-th value. */
  function ParamMap(vs: seq<Value>): (r: map<string, Value>)
    ensures forall k :: k in r <==> exists i :: 0 <= i < |vs| && k == ParamName(i)
    ensures forall i :: 0 <= i < |vs| ==> ParamName(i) in r && r[ParamName(i)] == vs[i]
  {
    ParamNamesDistinct();
    map i | 0 <= i < |vs| :: ParamName(i) := vs[i]
  }

  lemma ParamNamesDistinct()
    ensures forall i: nat, j: nat :: ParamName(i) == ParamName(j) ==> i == j
  {
    forall i: nat, j: nat | ParamName(i) == ParamName(j)
      ensures i == j
    {
      ParamNameInjective(i, j);
    }
  }

  lemma ParamMapExtendKeys(vs: seq<Value>, i: nat, k: string)
    requires i < |vs|
    ensures k in ParamMap(vs[..i])[ParamName(i) := vs[i]] <==> k in ParamMap(vs[..i + 1])
  {
    if k in ParamMap(vs[..i + 1]) && k != ParamName(i) {
      var j :| 0 <= j < i + 1 && k == ParamName(j);
    }
  }

  lemma ParamMapExtendValue(vs: seq<Value>, i: nat, j: nat)
    requires j < i < |vs|
    ensures ParamMap(vs[..i])[ParamName(i) := vs[i]][ParamName(j)] == ParamMap(vs[..i + 1])[ParamName(j)]
  {
    ParamNameFresh(i);
    assert vs[..i][j] == vs[j] == vs[..i + 1][j];
  }

  lemma ParamMapExtend(vs: seq<Value>, i: nat)
    requires i < |vs|
    ensures ParamMap(vs[..i])[ParamName(i) := vs[i]] == ParamMap(vs[..i + 1])
  {
    var a, b := ParamMap(vs[..i])[ParamName(i) := vs[i]], ParamMap(vs[..i + 1]);
    forall k
      ensures k in a <==> k in b
    {
      ParamMapExtendKeys(vs, i, k);
    }
    forall k | k in b
      ensures k in a && a[k] == b[k]
    {
      ParamMapExtendKeys(vs, i, k);
      ParamMapExtendAt(vs, i, k);
    }
    MapsAgree(a, b);
  }

  /** Two maps with the same keys and the same value at each key are equal. */
  lemma MapsAgree<K, V>(a: map<K, V>, b: map<K, V>)
    requires forall k :: k in a <==> k in b
    requires forall k :: k in b ==> k in a && a[k] == b[k]
    ensures a == b
  {
  }

  lemma ParamMapExtendAt(vs: seq<Value>, i: nat, k: string)
    requires i < |vs| && k in ParamMap(vs[..i + 1]) && k in ParamMap(vs[..i])[ParamName(i) := vs[i]]
    ensures ParamMap(vs[..i])[ParamName(i) := vs[i]][k] == ParamMap(vs[..i + 1])[k]
  {
    var j :| 0 <= j < i + 1 && k == ParamName(j);
    if j < i {
      ParamMapExtendValue(vs, i, j);
    }
  }

  /** The positional rewrite loop shared by single statements and transactions: one
      first-occurrence replacement and one dictionary entry per parameter. */
  method BindPositional(query: string, params: seq<Value>) returns (text: string, binds: map<string, Value>)
    ensures text == RewriteUpTo(query, |params|)
    ensures binds == ParamMap(params)
  {
    text, binds := query, map[];
    for i := 0 to |params|
      invariant text == RewriteUpTo(query, i)
      invariant binds == ParamMap(params[..i])
    {
      var name := ParamName(i);
      text := ReplaceFirst(text, "%s", ":" + name);
      binds := binds[name := params[i]];
      ParamMapExtend(params, i);
    }
    assert params[..|params|] == params;
  }

  /** On a query written as a plain template, the first `n` rewrite steps bind the
      first `n` placeholders, left to right, as `:param0` ... `:param<n-1>`; steps
      beyond the last placeholder leave the text alone. */
  lemma {:induction false} RewriteBindsInOrder(t: seq<Piece>, n: nat)
    requires Plain(t)
    ensures RewriteUpTo(Render(t), n) == RenderFrom(t, 0, n)
  {
    if n == 0 {
      RenderFromNone(t, 0, 0);
    } else {
      RewriteBindsInOrder(t, n - 1);
      if n - 1 < |HoleValues(t)| {
        BindNext(t, 0, n - 1);
      } else {
        BindPastEnd(t, 0, n - 1);
      }
    }
  }

  /** More parameters than placeholders: the extra rewrites do not change the text
      (the extra keys are still bound, by `ParamMap`). */
  lemma {:induction false} ExtraParamsLeaveText(t: seq<Piece>, n: nat)
    requires Plain(t) && n >= |HoleValues(t)|
    ensures RewriteUpTo(Render(t), n) == RewriteUpTo(Render(t), |HoleValues(t)|)
    ensures Lacks(RewriteUpTo(Render(t), n), '%')
  {
    RewriteBindsInOrder(t, n);
    RewriteBindsInOrder(t, |HoleValues(t)|);
    BoundTextStable(t, n);
    RenderFromAllBound(t, 0, n);
  }

  lemma {:induction false} BoundTextStable(t: seq<Piece>, n: nat)
    requires n >= |HoleValues(t)|
    ensures RenderFrom(t, 0, n) == RenderFrom(t, 0, |HoleValues(t)|)
  {
    if n > |HoleValues(t)| {
      BoundTextStable(t, n - 1);
      RenderFromStable(t, 0, n - 1);
    }
  }

  // ---------------------------------------------------------------------------
  // Named parameters.

  /** `query.replace('%(', ':').replace(')s', '')`. */
  function NamedRewrite(query: string): string
  {
    ReplaceAll(ReplaceAll(query, "%(", ":"), ")s", "")
  }

  /** On a well-formed named template the rewrite turns every `%(name)s` into
      `:name`, leaves the literals alone, and leaves no `%(` and no `)s`. */
  lemma NamedRewriteBinds(t: seq<NPiece>)
    requires NWellFormed(t)
    ensures NamedRewrite(NRender(t)) == NRenderBound(t)
    ensures Find(NamedRewrite(NRender(t)), "%(") < 0
    ensures Find(NamedRewrite(NRender(t)), ")s") < 0
  {
    NamedFirstPass(t);
    NamedSecondPass(t);
    NRenderBoundClean(t);
    FindAbsent(NRenderBound(t), "%(");
  }

  // ---------------------------------------------------------------------------
  // Preparing a statement (`execute_query`, `execute_transaction`).

  /** The text and binds a statement is executed with, or None for the ValueError
      raised on parameters that are truthy but neither a list nor a dict. */
  function Prepare(query: string, params: Params): (r: Option<Prepared>)
    ensures r.None? <==> params.OtherShape? && params.truthy
    ensures !ParamsGiven(params) ==> r == Some(Prepared(query, map[]))
  {
    if !ParamsGiven(params) then Some(Prepared(query, map[]))
    else match params
      case Positional(vs) => Some(Prepared(RewriteUpTo(query, |vs|), ParamMap(vs)))
      case Named(m) => Some(Prepared(NamedRewrite(query), m))
      case _ => None
  }

  method PrepareStatement(query: string, params: Params) returns (r: Option<Prepared>)
    ensures r == Prepare(query, params)
  {
    if ParamsGiven(params) {
      match params
      case Positional(vs) =>
        var text, binds := BindPositional(query, vs);
        r := Some(Prepared(text, binds));
      case Named(m) =>
        r := Some(Prepared(NamedRewrite(query), m));
      case OtherShape(_) =>
        r := None;
    } else {
      r := Some(Prepared(query, map[]));
    }
  }

  /** A query written as a plain template with its own hole values as the list:
      each placeholder is bound under its own index to the value that belongs to
      it. */
  lemma PrepareBindsTemplate(t: seq<Piece>)
    requires Plain(t) && |HoleValues(t)| > 0
    ensures Prepare(Render(t), Positional(HoleValues(t))) ==
              Some(Prepared(RenderFrom(t, 0, |HoleValues(t)|), ParamMap(HoleValues(t))))
    ensures Lacks(RenderFrom(t, 0, |HoleValues(t)|), '%')
  {
    RewriteBindsInOrder(t, |HoleValues(t)|);
    RenderFromAllBound(t, 0, |HoleValues(t)|);
  }

  // ---------------------------------------------------------------------------
  // Reads (`load_data`).

  /** The statement `load_data` reads with. A list is rewritten placeholder by
      placeholder, as in `execute_query`; a dict by the named rewrite; anything
      else, or no parameters, runs the query as it is with no binds. */
  function LoadPrepare(query: string, params: Params): (r: Prepared)
    ensures params.Positional? ==> r.binds == ParamMap(params.values)
    ensures params.NoParams? || params.OtherShape? ==> r == Prepared(query, map[])
  {
    match params
    case Positional(vs) => Prepared(RewriteUpTo(query, |vs|), ParamMap(vs))
    case Named(m) => Prepared(NamedRewrite(query), m)
    case _ => Prepared(query, map[])
  }

  /** The statement `load_data` reads with as the source writes it: every `%s` of a
      list query becomes the same un-indexed `:param`, while the keys bound are
      `param0` .... */
  function LoadPrepareAsWritten(query: string, params: Params): (r: Prepared)
    ensures params.Positional? ==> r.binds == ParamMap(params.values)
  {
    match params
    case Positional(vs) => Prepared(ReplaceAll(query, "%s", ":param"), ParamMap(vs))
    case Named(m) => Prepared(NamedRewrite(query), m)
    case _ => Prepared(query, map[])
  }

  /** `load_data`: the rows read, or an empty table on any error; it never raises. */
  function LoadData(read: Prepared -> Option<Table>, query: string, params: Params): (r: Table)
    ensures read(LoadPrepare(query, params)).None? ==> r == []
    ensures read(LoadPrepare(query, params)).Some? ==> r == read(LoadPrepare(query, params)).value
  {
    match read(LoadPrepare(query, params))
    case None => []
    case Some(rows) => rows
  }

  /** `load_data` over the statement as the source prepares it: the same policy,
      the rows on success and an empty table on any error. */
  function LoadDataAsWritten(read: Prepared -> Option<Table>, query: string, params: Params): (r: Table)
    ensures read(LoadPrepareAsWritten(query, params)).None? ==> r == []
    ensures read(LoadPrepareAsWritten(query, params)).Some? ==> r == read(LoadPrepareAsWritten(query, params)).value
  {
    match read(LoadPrepareAsWritten(query, params))
    case None => []
    case Some(rows) => rows
  }

  /** A character of `\w`, what SQLAlchemy's bind names are made of. */
  predicate IsWordChar(c: char)
  {
    'a' <= c <= 'z' || 'A' <= c <= 'Z' || '0' <= c <= '9' || c == '_'
  }

  /** The text holds, at `k`, a bind named exactly `param` as SQLAlchemy's `text()`
      reads binds: `:param` not preceded by a word character, `:` or `\`, and not
      followed by a word character or `:`. `:param0` is a bind named `param0`. */
  predicate BindsParamAt(text: string, k: int)
  {
    0 <= k && k + 6 <= |text| && text[k..k + 6] == ":param" &&
    (k == 0 || !(IsWordChar(text[k - 1]) || text[k - 1] == ':' || text[k - 1] == '\\')) &&
    (k + 6 == |text| || !(IsWordChar(text[k + 6]) || text[k + 6] == ':'))
  }

  /** The statement uses a bind named `param` that its dictionary does not supply.
      SQLAlchemy refuses such a statement. */
  predicate MissingParamBind(p: Prepared)
  {
    (exists k | 0 <= k <= |p.text| - 6 :: BindsParamAt(p.text, k)) && "param" !in p.binds
  }

  /** Every literal of the template is free of `c`. */
  predicate LitsLack(t: seq<Piece>, c: char)
  {
    forall i :: 0 <= i < |t| && t[i].Lit? ==> Lacks(t[i].text, c)
  }

  /** A bind found after a prefix is a bind of the rest. */
  lemma BindInRest(head: string, rest: string, k: int)
    requires k >= |head|
    ensures BindsParamAt(head + rest, k) ==> BindsParamAt(rest, k - |head|)
  {
    var text, j := head + rest, k - |head|;
    if 0 <= j && j + 6 <= |rest| {
      assert text[k..k + 6] == rest[j..j + 6];
      if j > 0 {
        assert text[k - 1] == rest[j - 1];
      }
      if j + 6 < |rest| {
        assert text[k + 6] == rest[j + 6];
      }
    }
  }

  /** No bind starts inside a literal free of `:`. */
  lemma LitHeadNoBind(head: string, rest: string, k: int)
    requires Lacks(head, ':') && k < |head|
    ensures !BindsParamAt(head + rest, k)
  {
    if 0 <= k && k + 6 <= |head + rest| {
      assert (head + rest)[k..k + 6][0] == head[k];
    }
  }

  /** No bind named `param` starts inside `:param{c}`: its only `:` is followed by a digit. */
  lemma HoleHeadNoBind(c: nat, rest: string, k: int)
    requires k < |":" + ParamName(c)|
    ensures !BindsParamAt(":" + ParamName(c) + rest, k)
  {
    ParamNameChars(c);
    var head := ":" + ParamName(c);
    if 0 <= k && k + 6 <= |head + rest| {
      assert (head + rest)[k..k + 6][0] == head[k];
      if k > 0 {
        assert head[k] == ParamName(c)[k - 1];
      } else {
        assert (head + rest)[6] == ParamName(c)[5];
      }
    }
  }

  /** `param{c}` is `param` and digits: no `:`, and a word character after `param`. */
  lemma ParamNameChars(c: nat)
    ensures |ParamName(c)| >= 6 && IsWordChar(ParamName(c)[5])
    ensures forall j :: 0 <= j < |ParamName(c)| ==> ParamName(c)[j] != ':'
  {
    var name, digits := ParamName(c), NatToString(c);
    assert name == "param" + digits;
    forall j | 0 <= j < |name|
      ensures name[j] != ':'
    {
      if j >= 5 {
        assert name[j] == digits[j - 5];
      }
    }
    assert name[5] == digits[0];
  }

  /** Once every hole is bound by index, the text names no bind `param`: every
      `:param` the rewrite wrote is followed by a digit, and the literals hold no `:`. */
  lemma {:induction false} BoundTextNamesNoParam(t: seq<Piece>, c: nat, n: nat)
    requires LitsLack(t, ':') && c + |HoleValues(t)| <= n
    ensures forall k :: !BindsParamAt(RenderFrom(t, c, n), k)
    decreases |t|
  {
    if |t| > 0 {
      var next := if t[0].Hole? then c + 1 else c;
      assert LitsLack(t[1..], ':') by {
        forall i | 0 <= i < |t[1..]| && t[1..][i].Lit?
          ensures Lacks(t[1..][i].text, ':')
        {
          assert t[1..][i] == t[i + 1];
        }
      }
      assert |HoleValues(t)| == (if t[0].Hole? then 1 else 0) + |HoleValues(t[1..])|;
      BoundTextNamesNoParam(t[1..], next, n);
      var rest := RenderFrom(t[1..], next, n);
      var head := if t[0].Lit? then t[0].text else ":" + ParamName(c);
      assert RenderFrom(t, c, n) == head + rest;
      assert t[0].Lit? ==> Lacks(t[0].text, ':');
      forall k
        ensures !BindsParamAt(head + rest, k)
      {
        if k >= |head| {
          BindInRest(head, rest, k);
        } else if t[0].Lit? {
          LitHeadNoBind(head, rest, k);
        } else {
          HoleHeadNoBind(c, rest, k);
        }
      }
    }
  }

  /** A `:param` right after a space and at the end of the text binds `param`. */
  lemma TrailingBind(front: string)
    requires |front| > 0 && front[|front| - 1] == ' '
    ensures BindsParamAt(front + ":param", |front|)
  {
    var text := front + ":param";
    assert text[|front|..|front| + 6] == ":param";
    assert text[|front| - 1] == ' ';
  }

  /** The as-written read of a list query binds none of its placeholders: every
      placeholder becomes `:param`, which is not among the keys. */
  lemma AsWrittenLeavesBindsMissing(t: seq<Piece>)
    requires Plain(t) && |HoleValues(t)| > 0
    ensures LoadPrepareAsWritten(Render(t), Positional(HoleValues(t))).text == RenderUniform(t, ":param")
    ensures Find(LoadPrepareAsWritten(Render(t), Positional(HoleValues(t))).text, ":param") >= 0
    ensures "param" !in LoadPrepareAsWritten(Render(t), Positional(HoleValues(t))).binds
  {
    ReplaceAllUniform(t, ":param");
    UniformMentions(t, ":param");
    var vs := HoleValues(t);
    forall i | 0 <= i < |vs|
      ensures ParamName(i) != "param"
    {
      assert |ParamName(i)| > 5;
    }
  }

  /** A text with at least one hole rendered as `token` contains `token`. */
  lemma {:induction false} UniformMentions(t: seq<Piece>, token: string)
    requires |HoleValues(t)| > 0 && |token| > 0
    ensures Find(RenderUniform(t, token), token) >= 0
    decreases |t|
  {
    var s := RenderUniform(t, token);
    if t[0].Hole? {
      FindPrefix(s, token);
    } else {
      var head, rest := t[0].text, RenderUniform(t[1..], token);
      UniformMentions(t[1..], token);
      var k := Find(rest, token);
      FindFromLeftmost(rest, token, 0);
      assert s == head + rest;
      OccursShift(head, rest, token, k);
      FindSome(s, token, |head| + k);
    }
  }

  // ---------------------------------------------------------------------------
  // The two invoice reducers.

  const SelectCount: Sql := Join2("SELECT COUNT(*)", " as count")
  const FromReceived: Sql := Join2(" FROM", " received_products")
  const WhereSupplier: Sql := Join2(" WHERE", " supplier_code = ")
  const AndInvoice: Sql := Join2(" AND", " supplier_invoice_number = ")

  /** The duplicate-invoice count query. */
  function InvoiceCountQuery(supplierCode: string, invoiceNumber: string): (t: seq<Piece>)
    ensures Plain(t) && HoleValues(t) == [Str(supplierCode), Str(invoiceNumber)]
  {
    Cat(Cat(Cat(
      Text(CountHead()),
      Param(Str(supplierCode))),
      Text(AndInvoice)),
      Param(Str(invoiceNumber)))
  }

  /** A literal, a hole, a literal and a hole, each hole rendered as `token`. */
  lemma UniformOfFour(a: string, x: Value, b: string, y: Value, token: string)
    ensures RenderUniform([Lit(a), Hole(x), Lit(b), Hole(y)], token) == a + token + b + token
  {
    var t := [Lit(a), Hole(x), Lit(b), Hole(y)];
    assert t[1..] == [Hole(x), Lit(b), Hole(y)] && t[2..] == [Lit(b), Hole(y)] && t[3..] == [Hole(y)];
    assert RenderUniform(t[3..], token) == token by {
      assert t[3..][1..] == [];
    }
    assert RenderUniform(t[2..], token) == b + token by {
      assert t[2..][1..] == t[3..];
    }
    assert RenderUniform(t[1..], token) == token + (b + token) by {
      assert t[1..][1..] == t[2..];
    }
  }

  /** A literal then a hole, the hole rendered as `token`. */
  lemma UniformOfTwo(a: string, x: Value, token: string)
    ensures RenderUniform([Lit(a), Hole(x)], token) == a + token
  {
    var t := [Lit(a), Hole(x)];
    assert t[1..] == [Hole(x)];
    assert RenderUniform(t[1..], token) == token by {
      assert t[1..][1..] == [];
    }
  }

  /** Literals free of `c` in a literal-hole-literal-hole template. */
  lemma LitsLackFour(a: string, x: Value, b: string, y: Value, c: char)
    requires Lacks(a, c) && Lacks(b, c)
    ensures LitsLack([Lit(a), Hole(x), Lit(b), Hole(y)], c)
  {
  }

  /** Literals free of `c` in a literal-hole template. */
  lemma LitsLackTwo(a: string, x: Value, c: char)
    requires Lacks(a, c)
    ensures LitsLack([Lit(a), Hole(x)], c)
  {
  }

  /** A `:param` at the end of a text whose last literal ends in a space is a bind. */
  lemma TrailingBindAfter(a: string, b: string)
    requires |b| > 0 && b[|b| - 1] == ' '
    ensures BindsParamAt(a + b + ":param", |a + b|)
  {
    assert (a + b)[|a + b| - 1] == b[|b| - 1];
    TrailingBind(a + b);
  }

  /** The head of the count query, up to its first placeholder. */
  function CountHead(): Sql
  {
    Join2(Join2(SelectCount, FromReceived), WhereSupplier)
  }

  lemma CountHeadLacksColon()
    ensures Lacks(CountHead(), ':')
  {
    LacksConcat("SELECT COUNT(*)", " as count", ':');
    LacksConcat(" FROM", " received_products", ':');
    LacksConcat(SelectCount, FromReceived, ':');
    LacksConcat(" WHERE", " supplier_code = ", ':');
    LacksConcat(Join2(SelectCount, FromReceived), WhereSupplier, ':');
  }

  lemma AndInvoiceShape()
    ensures Lacks(AndInvoice, ':') && |AndInvoice| > 0 && AndInvoice[|AndInvoice| - 1] == ' '
  {
    LacksConcat(" AND", " supplier_invoice_number = ", ':');
  }

  lemma CountQueryPieces(supplierCode: string, invoiceNumber: string)
    ensures InvoiceCountQuery(supplierCode, invoiceNumber) ==
            [Lit(CountHead()), Hole(Str(supplierCode)), Lit(AndInvoice), Hole(Str(invoiceNumber))]
  {
  }

  /** The count query's literals hold no `:`. */
  lemma CountQueryLitsLackColon(supplierCode: string, invoiceNumber: string)
    ensures LitsLack(InvoiceCountQuery(supplierCode, invoiceNumber), ':')
  {
    CountHeadLacksColon();
    AndInvoiceShape();
    CountQueryPieces(supplierCode, invoiceNumber);
    LitsLackFour(CountHead(), Str(supplierCode), AndInvoice, Str(invoiceNumber), ':');
  }

  /** As written, the count query's text ends in a `:param` after a space: a bind
      named `param`. */
  lemma CountQueryAsWrittenBind(supplierCode: string, invoiceNumber: string)
    ensures var text := RenderUniform(InvoiceCountQuery(supplierCode, invoiceNumber), ":param");
            exists k | 0 <= k <= |text| - 6 :: BindsParamAt(text, k)
  {
    CountQueryPieces(supplierCode, invoiceNumber);
    UniformOfFour(CountHead(), Str(supplierCode), AndInvoice, Str(invoiceNumber), ":param");
    AndInvoiceShape();
    TrailingBindAfter(CountHead() + ":param", AndInvoice);
  }

  /** `validate_supplier_invoice` on the rows read: valid when nothing was read,
      otherwise only when the count read is zero. */
  function InvoiceIsNew(result: Table): (r: bool)
    ensures |result| == 0 ==> r
    ensures |result| > 0 ==> (r <==> Column(result[0], "count") == Int(0))
  {
    if |result| == 0 then true else Column(result[0], "count") == Int(0)
  }

  /** `validate_supplier_invoice`: the count query is run with `param0` bound to the
      supplier and `param1` to the invoice number, in placeholder order. */
  function ValidateSupplierInvoice(read: Prepared -> Option<Table>, supplierCode: string, invoiceNumber: string): (r: bool)
    ensures
      var t := InvoiceCountQuery(supplierCode, invoiceNumber);
      var res := read(Prepared(RenderFrom(t, 0, 2), map[ParamName(0) := Str(supplierCode), ParamName(1) := Str(invoiceNumber)]));
      r <==> res.None? || |res.value| == 0 || Column(res.value[0], "count") == Int(0)
  {
    var t := InvoiceCountQuery(supplierCode, invoiceNumber);
    var vs := HoleValues(t);
    PrepareBindsTemplate(t);
    ParamMapPair(Str(supplierCode), Str(invoiceNumber));
    InvoiceIsNew(LoadData(read, Render(t), Positional(vs)))
  }

  lemma ParamMapPair(a: Value, b: Value)
    ensures ParamMap([a, b]) == map[ParamName(0) := a, ParamName(1) := b]
  {
    assert [a, b][..1] == [a];
    assert [a][..0] == [];
  }

  function ValidateSupplierInvoiceAsWritten(read: Prepared -> Option<Table>, supplierCode: string, invoiceNumber: string): bool
  {
    var t := InvoiceCountQuery(supplierCode, invoiceNumber);
    InvoiceIsNew(LoadDataAsWritten(read, Render(t), Positional(HoleValues(t))))
  }

  /** As written, against a database that refuses a statement with an unbound
      `:param`, every invoice validates, duplicates included. */
  lemma AsWrittenAcceptsEveryInvoice(read: Prepared -> Option<Table>, supplierCode: string, invoiceNumber: string)
    requires forall p :: MissingParamBind(p) ==> read(p).None?
    ensures ValidateSupplierInvoiceAsWritten(read, supplierCode, invoiceNumber)
  {
    var t := InvoiceCountQuery(supplierCode, invoiceNumber);
    AsWrittenLeavesBindsMissing(t);
    CountQueryAsWrittenBind(supplierCode, invoiceNumber);
  }

  /** A database that refuses a statement using an unsupplied `param` and otherwise
      answers every read with one row counting one match. */
  function StrictDatabase(p: Prepared): Option<Table>
  {
    if MissingParamBind(p) then None else Some([map["count" := Int(1)]])
  }

  /** Against that database a recorded invoice is a duplicate: the corrected check
      reports it, while the check as written still accepts it. */
  lemma DuplicateCaughtOnlyWhenCorrected(supplierCode: string, invoiceNumber: string)
    ensures forall p :: MissingParamBind(p) ==> StrictDatabase(p).None?
    ensures ValidateSupplierInvoiceAsWritten(StrictDatabase, supplierCode, invoiceNumber)
    ensures !ValidateSupplierInvoice(StrictDatabase, supplierCode, invoiceNumber)
  {
    AsWrittenAcceptsEveryInvoice(StrictDatabase, supplierCode, invoiceNumber);
    var t := InvoiceCountQuery(supplierCode, invoiceNumber);
    CountQueryLitsLackColon(supplierCode, invoiceNumber);
    BoundTextNamesNoParam(t, 0, 2);
    var p := Prepared(RenderFrom(t, 0, 2), map[ParamName(0) := Str(supplierCode), ParamName(1) := Str(invoiceNumber)]);
    assert !MissingParamBind(p);
    assert Column(StrictDatabase(p).value[0], "count") == Int(1);
  }

  /** The invoice summary of `get_invoice_summary`. */
  datatype InvoiceSummary = InvoiceSummary(
    totalItems: Value, totalQuantity: Value, status: Value, receivedDate: Value, supplierCode: Value)

  /** `get_invoice_summary` on the rows read: none for an empty result; otherwise
      the first row's aggregates, with the status shared when the smallest and
      largest quality status agree and `MIXED` when they differ. */
  function Summarize(result: Table): (r: Option<InvoiceSummary>)
    ensures r.None? <==> |result| == 0
    ensures r.Some? ==>
              var row := result[0];
              r.value.totalItems == Column(row, "total_items") &&
              r.value.totalQuantity == Column(row, "total_quantity") &&
              (Column(row, "min_status") == Column(row, "max_status") ==> r.value.status == Column(row, "min_status")) &&
              (Column(row, "min_status") != Column(row, "max_status") ==> r.value.status == Str("MIXED"))
  {
    if |result| == 0 then None
    else
      var row := result[0];
      var lo, hi := Column(row, "min_status"), Column(row, "max_status");
      Some(InvoiceSummary(
        Column(row, "total_items"), Column(row, "total_quantity"),
        if lo == hi then lo else Str("MIXED"),
        Column(row, "received_date"), Column(row, "supplier_code")))
  }

  const TotalItems: Sql := Join2("COUNT(*) as", " total_items, ")
  const TotalQuantity: Sql := Join2("SUM(quantity) as", " total_quantity, ")
  const MinStatus: Sql := Join2("MIN(quality_status)", " as min_status, ")
  const MaxStatus: Sql := Join2("MAX(quality_status)", " as max_status, ")
  const FirstReceived: Sql := Join2("MIN(received_date)", " as received_date, ")
  const AnySupplier: Sql := Join2("MAX(supplier_code)", " as supplier_code")
  const WhereInvoice: Sql := Join2(" WHERE", " supplier_invoice_number = ")

  /** The invoice summary query. */
  function InvoiceSummaryQuery(invoiceNumber: string): (t: seq<Piece>)
    ensures Plain(t) && HoleValues(t) == [Str(invoiceNumber)]
  {
    Cat(Text(SummaryHead()), Param(Str(invoiceNumber)))
  }


  /** `get_invoice_summary`: none when the read fails or is empty. */
  function GetInvoiceSummary(read: Prepared -> Option<Table>, invoiceNumber: string): (r: Option<InvoiceSummary>)
    ensures
      var t := InvoiceSummaryQuery(invoiceNumber);
      var res := read(Prepared(RenderFrom(t, 0, 1), map[ParamName(0) := Str(invoiceNumber)]));
      r.None? <==> res.None? || |res.value| == 0
  {
    var t := InvoiceSummaryQuery(invoiceNumber);
    PrepareBindsTemplate(t);
    assert ParamMap([Str(invoiceNumber)]) == map[ParamName(0) := Str(invoiceNumber)] by {
      assert [Str(invoiceNumber)][..0] == [];
    }
    Summarize(LoadData(read, Render(t), Positional(HoleValues(t))))
  }

  function GetInvoiceSummaryAsWritten(read: Prepared -> Option<Table>, invoiceNumber: string): Option<InvoiceSummary>
  {
    var t := InvoiceSummaryQuery(invoiceNumber);
    Summarize(LoadDataAsWritten(read, Render(t), Positional(HoleValues(t))))
  }

  /** The select list of the summary query. */
  function SummaryColumns(): Sql
  {
    Join2(Join2(Join2(TotalItems, TotalQuantity), Join2(MinStatus, MaxStatus)),
          Join2(FirstReceived, AnySupplier))
  }

  /** The summary query up to its placeholder. */
  function SummaryHead(): Sql
  {
    Join2(Join2(Join2("SELECT ", SummaryColumns()), FromReceived), WhereInvoice)
  }

  lemma SummaryColumnsLackColon()
    ensures Lacks(SummaryColumns(), ':')
  {
    LacksConcat("COUNT(*) as", " total_items, ", ':');
    LacksConcat("SUM(quantity) as", " total_quantity, ", ':');
    LacksConcat("MIN(quality_status)", " as min_status, ", ':');
    LacksConcat("MAX(quality_status)", " as max_status, ", ':');
    LacksConcat("MIN(received_date)", " as received_date, ", ':');
    LacksConcat("MAX(supplier_code)", " as supplier_code", ':');
    LacksConcat(TotalItems, TotalQuantity, ':');
    LacksConcat(MinStatus, MaxStatus, ':');
    LacksConcat(FirstReceived, AnySupplier, ':');
    LacksConcat(Join2(TotalItems, TotalQuantity), Join2(MinStatus, MaxStatus), ':');
    LacksConcat(Join2(Join2(TotalItems, TotalQuantity), Join2(MinStatus, MaxStatus)),
                Join2(FirstReceived, AnySupplier), ':');
  }

  lemma SummaryHeadShape()
    ensures Lacks(SummaryHead(), ':') && |SummaryHead()| > 0 && SummaryHead()[|SummaryHead()| - 1] == ' '
  {
    SummaryColumnsLackColon();
    LacksConcat("SELECT ", SummaryColumns(), ':');
    LacksConcat(" FROM", " received_products", ':');
    LacksConcat(Join2("SELECT ", SummaryColumns()), FromReceived, ':');
    LacksConcat(" WHERE", " supplier_invoice_number = ", ':');
    LacksConcat(Join2(Join2("SELECT ", SummaryColumns()), FromReceived), WhereInvoice, ':');
    assert WhereInvoice[|WhereInvoice| - 1] == ' ';
  }

  /** The summary query's literal holds no `:`. */
  lemma SummaryQueryLitsLackColon(invoiceNumber: string)
    ensures LitsLack(InvoiceSummaryQuery(invoiceNumber), ':')
  {
    SummaryHeadShape();
    assert InvoiceSummaryQuery(invoiceNumber) == [Lit(SummaryHead()), Hole(Str(invoiceNumber))];
    LitsLackTwo(SummaryHead(), Str(invoiceNumber), ':');
  }

  /** As written, the summary query's text ends in a `:param` after a space. */
  lemma SummaryQueryAsWrittenBind(invoiceNumber: string)
    ensures var text := RenderUniform(InvoiceSummaryQuery(invoiceNumber), ":param");
            exists k | 0 <= k <= |text| - 6 :: BindsParamAt(text, k)
  {
    SummaryHeadShape();
    assert InvoiceSummaryQuery(invoiceNumber) == [Lit(SummaryHead()), Hole(Str(invoiceNumber))];
    UniformOfTwo(SummaryHead(), Str(invoiceNumber), ":param");
    TrailingBindAfter("", SummaryHead());
    assert "" + SummaryHead() == SummaryHead();
  }

  /** As written, against a database that refuses a statement using an unsupplied
      `param`, no invoice has a summary, even one that was received. */
  lemma AsWrittenSummaryAlwaysNone(read: Prepared -> Option<Table>, invoiceNumber: string)
    requires forall p :: MissingParamBind(p) ==> read(p).None?
    ensures GetInvoiceSummaryAsWritten(read, invoiceNumber).None?
  {
    AsWrittenLeavesBindsMissing(InvoiceSummaryQuery(invoiceNumber));
    SummaryQueryAsWrittenBind(invoiceNumber);
  }

  /** Against the database above, where every invoice has a row, the corrected
      summary is found while the summary as written is not. */
  lemma SummaryFoundOnlyWhenCorrected(invoiceNumber: string)
    ensures GetInvoiceSummaryAsWritten(StrictDatabase, invoiceNumber).None?
    ensures GetInvoiceSummary(StrictDatabase, invoiceNumber).Some?
  {
    AsWrittenSummaryAlwaysNone(StrictDatabase, invoiceNumber);
    var t := InvoiceSummaryQuery(invoiceNumber);
    SummaryQueryLitsLackColon(invoiceNumber);
    BoundTextNamesNoParam(t, 0, 1);
    var p := Prepared(RenderFrom(t, 0, 1), map[ParamName(0) := Str(invoiceNumber)]);
    assert !MissingParamBind(p);
  }

  // ---------------------------------------------------------------------------
  // Statements and transactions.

  /** What executing one prepared statement does: it fails, or it gives the new
      database state and, when the statement returns rows, the rows. */
  datatype Outcome<S> = Failed | Ran(after: S, rows: Option<Table>)

  /** What `execute_query` gives back: the rows of a SELECT, nothing for other
      statements, or the exception it re-raises. */
  datatype Error = DatabaseError | ParamsError
  datatype QueryResult = Returned(rows: Option<Table>) | Raised(error: Error)

  datatype Statement = Statement(query: string, params: Params)

  /** Running `stmts` in order from `s` with a partial step: the final state, or
      None as soon as one step fails. */
  function RunAll<S, T>(s: S, stmts: seq<T>, step: (S, T) -> Option<S>): Option<S>
    decreases |stmts|
  {
    if |stmts| == 0 then Some(s)
    else match step(s, stmts[0])
      case None => None
      case Some(s') => RunAll(s', stmts[1..], step)
  }

  /** Running a concatenation is running the first part and then, if it succeeded,
      the second. */
  lemma {:induction false} RunAllAppend<S, T>(s: S, a: seq<T>, b: seq<T>, step: (S, T) -> Option<S>)
    ensures RunAll(s, a + b, step) ==
              match RunAll(s, a, step) case None => None case Some(s') => RunAll(s', b, step)
    decreases |a|
  {
    if |a| > 0 {
      assert (a + b)[0] == a[0] && (a + b)[1..] == a[1..] + b;
      match step(s, a[0])
      case None =>
      case Some(s') => RunAllAppend(s', a[1..], b, step);
    } else {
      assert a + b == b;
    }
  }

  /** The state reached before statement `i`. */
  function Reached<S, T>(s: S, stmts: seq<T>, i: nat, step: (S, T) -> Option<S>): Option<S>
    requires i <= |stmts|
  {
    RunAll(s, stmts[..i], step)
  }

  /** A run succeeds exactly when every statement, from the state the earlier ones
      reached, succeeds. */
  lemma {:induction false} RunAllSucceedsIff<S, T>(s: S, stmts: seq<T>, step: (S, T) -> Option<S>)
    ensures RunAll(s, stmts, step).Some? <==>
              forall i :: 0 <= i < |stmts| ==>
                Reached(s, stmts, i, step).Some? && step(Reached(s, stmts, i, step).value, stmts[i]).Some?
    decreases |stmts|
  {
    if |stmts| > 0 {
      var n := |stmts| - 1;
      RunAllSucceedsIff(s, stmts[..n], step);
      RunAllAppend(s, stmts[..n], [stmts[n]], step);
      assert stmts[..n] + [stmts[n]] == stmts;
      forall i | 0 <= i < n
        ensures Reached(s, stmts, i, step) == Reached(s, stmts[..n], i, step)
      {
        assert stmts[..i] == stmts[..n][..i];
      }
      if RunAll(s, stmts, step).None? && RunAll(s, stmts[..n], step).Some? {
        assert stmts[..n] == stmts[..n];
        assert Reached(s, stmts, n, step) == RunAll(s, stmts[..n], step);
      }
    }
  }

  /** One statement of a transaction: prepared, then run. */
  function Step<S>(run: (S, Prepared) -> Outcome<S>, s: S, st: Statement): Option<S>
  {
    match Prepare(st.query, st.params)
    case None => None
    case Some(p) => match run(s, p) case Failed => None case Ran(s', _) => Some(s')
  }

  /** The state a transaction commits, or None when it rolls back. */
  function Transaction<S>(run: (S, Prepared) -> Outcome<S>, s: S, stmts: seq<Statement>): Option<S>
  {
    RunAll(s, stmts, (s', st) => Step(run, s', st))
  }

  /** A statement whose parameters are the wrong shape rolls back the whole
      transaction, wherever it stands. */
  lemma BadParamsAbort<S>(run: (S, Prepared) -> Outcome<S>, s: S, stmts: seq<Statement>, i: nat)
    requires i < |stmts| && stmts[i].params.OtherShape? && stmts[i].params.truthy
    ensures Transaction(run, s, stmts).None?
  {
    var step := (s', st) => Step(run, s', st);
    var rest := [stmts[i]] + stmts[i + 1..];
    assert stmts == stmts[..i] + rest;
    RunAllAppend(s, stmts[..i], rest, step);
    match RunAll(s, stmts[..i], step)
    case None =>
    case Some(s') =>
      assert step(s', rest[0]).None?;
      RunAllStops(s', rest, step);
  }

  /** A run whose first statement fails fails. */
  lemma RunAllStops<S, T>(s: S, stmts: seq<T>, step: (S, T) -> Option<S>)
    requires |stmts| > 0 && step(s, stmts[0]).None?
    ensures RunAll(s, stmts, step).None?
  {
  }

  /** Two transactions in a row commit what the single transaction over both
      statement lists commits. */
  lemma TransactionAppend<S>(run: (S, Prepared) -> Outcome<S>, s: S, a: seq<Statement>, b: seq<Statement>)
    ensures Transaction(run, s, a + b) ==
              match Transaction(run, s, a) case None => None case Some(s') => Transaction(run, s', b)
  {
    RunAllAppend(s, a, b, (s', st) => Step(run, s', st));
  }

  /** The database engine: its committed state and how it runs a statement. */
  class Engine<S> {
    var state: S
    const run: (S, Prepared) -> Outcome<S>

    constructor (initial: S, run: (S, Prepared) -> Outcome<S>)
      ensures state == initial && this.run == run
    {
      state := initial;
      this.run := run;
    }

    /** `execute_query`: one statement in its own transaction. Errors are re-raised
        and leave the state as it was. */
    method ExecuteQuery(query: string, params: Params) returns (r: QueryResult)
      modifies this
      ensures Prepare(query, params).None? ==> r == Raised(ParamsError) && state == old(state)
      ensures Prepare(query, params).Some? ==>
                var o := run(old(state), Prepare(query, params).value);
                (o.Failed? ==> r == Raised(DatabaseError) && state == old(state)) &&
                (o.Ran? ==> r == Returned(o.rows) && state == o.after)
    {
      var p := PrepareStatement(query, params);
      if p.None? {
        return Raised(ParamsError);
      }
      var o := run(state, p.value);
      if o.Failed? {
        return Raised(DatabaseError);
      }
      state := o.after;
      r := Returned(o.rows);
    }

    /** `execute_transaction`: every statement inside one `begin()` scope. True and
        everything committed when all succeed; false and nothing changed otherwise. */
    method ExecuteTransaction(stmts: seq<Statement>) returns (ok: bool)
      modifies this
      ensures ok <==> Transaction(run, old(state), stmts).Some?
      ensures state == if ok then Transaction(run, old(state), stmts).value else old(state)
    {
      ghost var step := (s', st) => Step(run, s', st);
      var s := state;
      for i := 0 to |stmts|
        invariant state == old(state)
        invariant RunAll(state, stmts[..i], step) == Some(s)
      {
        RunAllAppend(state, stmts[..i], [stmts[i]], step);
        assert stmts[..i + 1] == stmts[..i] + [stmts[i]];
        var p := PrepareStatement(stmts[i].query, stmts[i].params);
        if p.None? {
          FailurePersists(state, stmts, i + 1, step);
          return false;
        }
        var o := run(s, p.value);
        if o.Failed? {
          FailurePersists(state, stmts, i + 1, step);
          return false;
        }
        s := o.after;
      }
      assert stmts[..|stmts|] == stmts;
      state := s;
      ok := true;
    }
  }

  /** Once a prefix fails, the whole run fails. */
  lemma FailurePersists<S, T>(s: S, stmts: seq<T>, i: nat, step: (S, T) -> Option<S>)
    requires i <= |stmts| && RunAll(s, stmts[..i], step).None?
    ensures RunAll(s, stmts, step).None?
  {
    RunAllAppend(s, stmts[..i], stmts[i..], step);
    assert stmts[..i] + stmts[i..] == stmts;
  }
}
