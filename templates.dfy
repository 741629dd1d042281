/** Query text seen as literal SQL interleaved with placeholders.

    A positional template is a sequence of pieces; rendering it gives the
    `%s`-style text the pages and the inventory layer hand to the data-access
    layer, and its holes give, in order, the values those placeholders stand
    for. A named template does the same for `%(name)s` placeholders. These views
    let the rewrites of the data-access layer be stated against what the text
    means rather than against its characters. */
module Templates {
  import opened Common
  import opened Strings

  // ---------------------------------------------------------------------------
  // Positional templates: `%s` placeholders.

  datatype Piece = Lit(text: string) | Hole(value: Value)

  function RenderPiece(p: Piece): string
  {
    match p
    case Lit(s) => s
    case Hole(_) => "%s"
  }

  /** The `%s`-style query text. */
  function Render(t: seq<Piece>): string
  {
    if |t| == 0 then "" else RenderPiece(t[0]) + Render(t[1..])
  }

  /** The values of the holes, left to right: the parameter list that belongs with
      `Render(t)`. */
  function HoleValues(t: seq<Piece>): (r: seq<Value>)
    ensures |r| <= |t|
  {
    if |t| == 0 then []
    else (if t[0].Hole? then [t[0].value] else []) + HoleValues(t[1..])
  }

  /** No literal contains `%`, so the only `%s` in the text are the holes. */
  predicate Plain(t: seq<Piece>)
  {
    |t| == 0 || ((t[0].Lit? ==> Lacks(t[0].text, '%')) && Plain(t[1..]))
  }

  lemma {:induction false} ConcatPlain(a: seq<Piece>, b: seq<Piece>)
    ensures Plain(a + b) <==> Plain(a) && Plain(b)
    decreases |a|
  {
    if |a| > 0 {
      assert (a + b)[0] == a[0] && (a + b)[1..] == a[1..] + b;
      ConcatPlain(a[1..], b);
    } else {
      assert a + b == b;
    }
  }

  lemma {:induction false} ConcatRender(a: seq<Piece>, b: seq<Piece>)
    ensures Render(a + b) == Render(a) + Render(b)
    decreases |a|
  {
    if |a| > 0 {
      assert (a + b)[0] == a[0] && (a + b)[1..] == a[1..] + b;
      ConcatRender(a[1..], b);
      assert Render(a + b) == RenderPiece(a[0]) + (Render(a[1..]) + Render(b));
    } else {
      assert a + b == b;
    }
  }

  lemma {:induction false} ConcatHoles(a: seq<Piece>, b: seq<Piece>)
    ensures HoleValues(a + b) == HoleValues(a) + HoleValues(b)
    decreases |a|
  {
    if |a| > 0 {
      assert (a + b)[0] == a[0] && (a + b)[1..] == a[1..] + b;
      ConcatHoles(a[1..], b);
    } else {
      assert a + b == b;
    }
  }

  /** Putting two templates side by side puts their texts and their parameter lists
      side by side. */
  lemma Concat(a: seq<Piece>, b: seq<Piece>)
    ensures Plain(a + b) <==> Plain(a) && Plain(b)
    ensures Render(a + b) == Render(a) + Render(b)
    ensures HoleValues(a + b) == HoleValues(a) + HoleValues(b)
  {
    ConcatPlain(a, b);
    ConcatRender(a, b);
    ConcatHoles(a, b);
  }

  /** Literal SQL text: no `%` in it. */
  type Sql = s: string | Lacks(s, '%')

  /** A literal part of a query. */
  function Text(s: Sql): (t: seq<Piece>)
    ensures Plain(t) && Render(t) == s && HoleValues(t) == []
  {
    [Lit(s)]
  }

  /** Two parts of a query, one after the other. */
  function Cat(a: seq<Piece>, b: seq<Piece>): (t: seq<Piece>)
    ensures t == a + b
    ensures Plain(t) <==> Plain(a) && Plain(b)
    ensures Render(t) == Render(a) + Render(b)
    ensures HoleValues(t) == HoleValues(a) + HoleValues(b)
  {
    Concat(a, b);
    a + b
  }

  /** Literal SQL text joined. */
  function Join2(a: Sql, b: Sql): (r: Sql)
    ensures r == a + b
  {
    LacksConcat(a, b, '%');
    a + b
  }

  /** One `%s` placeholder standing for `v`. */
  function Param(v: Value): (t: seq<Piece>)
    ensures Plain(t) && Render(t) == "%s" && HoleValues(t) == [v]
  {
    [Hole(v)]
  }

  /** Literal text followed by the rest of a query. */
  function Lead(s: Sql, t: seq<Piece>): (r: seq<Piece>)
    ensures Plain(r) <==> Plain(t)
    ensures Render(r) == s + Render(t)
    ensures HoleValues(r) == HoleValues(t)
  {
    assert ([Lit(s)] + t)[1..] == t;
    [Lit(s)] + t
  }

  /** A placeholder for `v` followed by the rest of a query. */
  function Slot(v: Value, t: seq<Piece>): (r: seq<Piece>)
    ensures Plain(r) <==> Plain(t)
    ensures Render(r) == "%s" + Render(t)
    ensures HoleValues(r) == [v] + HoleValues(t)
  {
    assert ([Hole(v)] + t)[1..] == t;
    [Hole(v)] + t
  }

  /** Literal text, a placeholder for `v`, more literal text, a placeholder for
      `w`, then the rest of a query. */
  function Pair(h: Sql, v: Value, s: Sql, w: Value, t: seq<Piece>): (r: seq<Piece>)
    ensures Plain(r) <==> Plain(t)
    ensures Render(r) == h + ("%s" + (s + ("%s" + Render(t))))
    ensures HoleValues(r) == [v, w] + HoleValues(t)
  {
    assert [v] + ([w] + HoleValues(t)) == [v, w] + HoleValues(t);
    Lead(h, Slot(v, Lead(s, Slot(w, t))))
  }

  /** Rendering a piece never ends with `%`, so no `%s` straddles two pieces. */
  lemma PieceEnd(p: Piece, pat: string)
    requires |pat| == 2 && pat[0] == '%'
    requires p.Lit? ==> Lacks(p.text, '%')
    ensures forall b: string :: NoStraddle(RenderPiece(p), b, pat)
  {
  }

  /** The text of a plain template has exactly one `%s` per parameter: the number
      of placeholders matches the number of values. */
  lemma {:induction false} PlaceholderCount(t: seq<Piece>)
    requires Plain(t)
    ensures Count(Render(t), "%s") == |HoleValues(t)|
  {
    if |t| > 0 {
      var a, rest := RenderPiece(t[0]), Render(t[1..]);
      PieceEnd(t[0], "%s");
      CountConcat(a, rest, "%s");
      PlaceholderCount(t[1..]);
      if t[0].Lit? {
        FindAbsent(a, "%s");
      } else {
        FindPrefix(a, "%s");
        assert a[2..] == "";
      }
    }
  }

  // ---------------------------------------------------------------------------
  // Indexed binding of positional placeholders.

  /** The name the i-th positional value is bound under: `param0`, `param1`, ... */
  function ParamName(i: nat): (r: string)
    ensures |r| > 5 && r[..5] == "param"
    ensures Lacks(r, '%') && Lacks(r, ')')
  {
    "param" + NatToString(i)
  }

  lemma ParamNameInjective(i: nat, j: nat)
    requires ParamName(i) == ParamName(j)
    ensures i == j
  {
    assert ParamName(i)[5..] == NatToString(i);
    assert ParamName(j)[5..] == NatToString(j);
    NatToStringInjective(i, j);
  }

  /** The text after the holes numbered `c` up to `n - 1` (counting from `c` at the
      first hole of `t`) are bound as `:param<index>`; later holes stay `%s`. */
  function RenderFrom(t: seq<Piece>, c: nat, n: nat): string
  {
    if |t| == 0 then ""
    else match t[0]
      case Lit(s) => s + RenderFrom(t[1..], c, n)
      case Hole(_) => (if c < n then ":" + ParamName(c) else "%s") + RenderFrom(t[1..], c + 1, n)
  }

  /** With nothing to bind, the text is the `%s`-style text. */
  lemma {:induction false} RenderFromNone(t: seq<Piece>, c: nat, n: nat)
    requires c >= n
    ensures RenderFrom(t, c, n) == Render(t)
    decreases |t|
  {
    if |t| > 0 {
      RenderFromNone(t[1..], if t[0].Hole? then c + 1 else c, n);
    }
  }

  /** Once every hole is bound, no `%` is left. */
  lemma {:induction false} RenderFromAllBound(t: seq<Piece>, c: nat, n: nat)
    requires Plain(t) && c + |HoleValues(t)| <= n
    ensures Lacks(RenderFrom(t, c, n), '%')
    decreases |t|
  {
    if |t| > 0 {
      var c' := if t[0].Hole? then c + 1 else c;
      RenderFromAllBound(t[1..], c', n);
      var head := if t[0].Hole? then ":" + ParamName(c) else t[0].text;
      LacksConcat(head, RenderFrom(t[1..], c', n), '%');
    }
  }

  /** Binding the next placeholder: replacing the first `%s` left in the text by
      `:param<n>` binds exactly the hole numbered `n`. */
  lemma {:induction false} BindNext(t: seq<Piece>, c: nat, n: nat)
    requires Plain(t) && c <= n < c + |HoleValues(t)|
    ensures ReplaceFirst(RenderFrom(t, c, n), "%s", ":" + ParamName(n)) == RenderFrom(t, c, n + 1)
    decreases |t|
  {
    var rep := ":" + ParamName(n);
    var rest := t[1..];
    var c' := if t[0].Hole? then c + 1 else c;
    if t[0].Lit? || c < n {
      var head := if t[0].Hole? then ":" + ParamName(c) else t[0].text;
      if t[0].Hole? {
        LacksConcat(":", ParamName(c), '%');
      }
      BindNext(rest, c', n);
      BindAfter(head, RenderFrom(rest, c', n), RenderFrom(rest, c', n + 1), rep);
    } else {
      RenderFromNone(rest, c + 1, n);
      RenderFromNone(rest, c + 1, n + 1);
      ReplaceFirstHead(Render(rest), "%s", rep);
    }
  }

  /** Text without `%` in front of the first placeholder is left alone. */
  lemma BindAfter(head: string, x: string, y: string, rep: string)
    requires Lacks(head, '%') && ReplaceFirst(x, "%s", rep) == y
    ensures ReplaceFirst(head + x, "%s", rep) == head + y
  {
    FindAbsent(head, "%s");
    ReplaceFirstConcat(head, x, "%s", rep);
  }

  /** Binding beyond the last placeholder changes nothing. */
  lemma BindPastEnd(t: seq<Piece>, c: nat, n: nat)
    requires Plain(t) && c + |HoleValues(t)| <= n
    ensures ReplaceFirst(RenderFrom(t, c, n), "%s", ":" + ParamName(n)) == RenderFrom(t, c, n)
    ensures RenderFrom(t, c, n + 1) == RenderFrom(t, c, n)
  {
    RenderFromAllBound(t, c, n);
    FindAbsent(RenderFrom(t, c, n), "%s");
    RenderFromStable(t, c, n);
  }

  lemma {:induction false} RenderFromStable(t: seq<Piece>, c: nat, n: nat)
    requires c + |HoleValues(t)| <= n
    ensures RenderFrom(t, c, n + 1) == RenderFrom(t, c, n)
    decreases |t|
  {
    if |t| > 0 {
      RenderFromStable(t[1..], if t[0].Hole? then c + 1 else c, n);
    }
  }

  /** The text where every hole is replaced by the same token. */
  function RenderUniform(t: seq<Piece>, token: string): string
  {
    if |t| == 0 then ""
    else (if t[0].Hole? then token else t[0].text) + RenderUniform(t[1..], token)
  }

  /** Replacing every `%s` at once by one token gives every hole that token. */
  lemma {:induction false} ReplaceAllUniform(t: seq<Piece>, token: string)
    requires Plain(t) && Lacks(token, '%')
    ensures ReplaceAll(Render(t), "%s", token) == RenderUniform(t, token)
    decreases |t|
  {
    if |t| > 0 {
      var a, rest := RenderPiece(t[0]), Render(t[1..]);
      assert Render(t) == a + rest;
      PieceEnd(t[0], "%s");
      ReplaceAllConcat(a, rest, "%s", token);
      ReplaceAllUniform(t[1..], token);
      ReplacePiece(t[0], token);
    }
  }

  lemma ReplacePiece(p: Piece, token: string)
    requires p.Lit? ==> Lacks(p.text, '%')
    ensures ReplaceAll(RenderPiece(p), "%s", token) == if p.Hole? then token else p.text
  {
    var a := RenderPiece(p);
    if p.Lit? {
      FindAbsent(a, "%s");
    } else {
      FindPrefix(a, "%s");
      assert a[2..] == "";
    }
  }

  // ---------------------------------------------------------------------------
  // Named templates: `%(name)s` placeholders.

  datatype NPiece = NLit(text: string) | NHole(name: string)

  function NRenderPiece(p: NPiece): string
  {
    match p
    case NLit(s) => s
    case NHole(x) => "%(" + x + ")s"
  }

  /** The `%(name)s`-style query text. */
  function NRender(t: seq<NPiece>): string
  {
    if |t| == 0 then "" else NRenderPiece(t[0]) + NRender(t[1..])
  }

  /** The same query with SQLAlchemy `:name` binds. */
  function NRenderBound(t: seq<NPiece>): string
  {
    if |t| == 0 then ""
    else (match t[0] case NLit(s) => s case NHole(x) => ":" + x) + NRenderBound(t[1..])
  }

  /** The names of the holes, left to right. */
  function NHoleNames(t: seq<NPiece>): (r: seq<string>)
    ensures |r| <= |t|
  {
    if |t| == 0 then []
    else (if t[0].NHole? then [t[0].name] else []) + NHoleNames(t[1..])
  }

  /** A named template in the form queries are written in: literals contain no `%`
      and no `)s`, two literals are never adjacent (adjacent literals are one
      literal), and names contain neither `%` nor `)`. */
  predicate NWellFormed(t: seq<NPiece>)
  {
    |t| == 0 ||
    ((match t[0]
      case NLit(s) => Lacks(s, '%') && Find(s, ")s") < 0 && (|t| > 1 ==> t[1].NHole?)
      case NHole(x) => Lacks(x, '%') && Lacks(x, ')'))
     && NWellFormed(t[1..]))
  }

  /** The text after the first pass, `%(` to `:`. */
  function NHalfBound(t: seq<NPiece>): string
  {
    if |t| == 0 then ""
    else (match t[0] case NLit(s) => s case NHole(x) => ":" + x + ")s") + NHalfBound(t[1..])
  }

  /** One placeholder through the first pass: `%(x)s` becomes `:x)s`. */
  lemma HoleFirstPass(x: string)
    requires Lacks(x, '%')
    ensures ReplaceAll("%(" + x + ")s", "%(", ":") == ":" + x + ")s"
  {
    var a, tail := "%(" + x + ")s", x + ")s";
    FindPrefix(a, "%(");
    assert a[2..] == tail;
    LacksConcat(x, ")s", '%');
    FindAbsent(tail, "%(");
  }

  /** One placeholder through the second pass: `:x)s` becomes `:x`. */
  lemma HoleSecondPass(x: string)
    requires Lacks(x, ')')
    ensures ReplaceAll(":" + x + ")s", ")s", "") == ":" + x
  {
    var a := ":" + x + ")s";
    assert Lacks(":", ')');
    LacksConcat(":", x, ')');
    assert a == (":" + x) + ")s";
    FindAfter(":" + x, ")s", ")s");
    assert a[..|x| + 1] == ":" + x;
    assert a[|x| + 3..] == "";
  }

  lemma {:induction false} NamedFirstPass(t: seq<NPiece>)
    requires NWellFormed(t)
    ensures ReplaceAll(NRender(t), "%(", ":") == NHalfBound(t)
    decreases |t|
  {
    if |t| > 0 {
      var a, rest := NRenderPiece(t[0]), NRender(t[1..]);
      assert NoStraddle(a, rest, "%(");
      ReplaceAllConcat(a, rest, "%(", ":");
      NamedFirstPass(t[1..]);
      match t[0]
      case NLit(s) =>
        FindAbsent(s, "%(");
      case NHole(x) =>
        HoleFirstPass(x);
    }
  }

  lemma {:induction false} NamedSecondPass(t: seq<NPiece>)
    requires NWellFormed(t)
    ensures ReplaceAll(NHalfBound(t), ")s", "") == NRenderBound(t)
    ensures |t| > 0 && t[0].NHole? ==> NHalfBound(t)[0] == ':'
    decreases |t|
  {
    if |t| > 0 {
      var rest := NHalfBound(t[1..]);
      NamedSecondPass(t[1..]);
      match t[0]
      case NLit(s) =>
        assert NoStraddle(s, rest, ")s");
        ReplaceAllConcat(s, rest, ")s", "");
      case NHole(x) =>
        var a := ":" + x + ")s";
        HoleSecondPass(x);
        assert NoStraddle(a, rest, ")s");
        ReplaceAllConcat(a, rest, ")s", "");
    }
  }

  /** Literal text of a named query: no `%` and no `)` in it. */
  type NSql = s: string | Lacks(s, '%') && Lacks(s, ')')

  function NJoin2(a: NSql, b: NSql): (r: NSql)
    ensures r == a + b
  {
    LacksConcat(a, b, '%');
    LacksConcat(a, b, ')');
    a + b
  }

  /** After the rewrite no `%` is left, so no `%(` either, and no `)s` remains. */
  lemma {:induction false} NRenderBoundClean(t: seq<NPiece>)
    requires NWellFormed(t)
    ensures Lacks(NRenderBound(t), '%')
    ensures Find(NRenderBound(t), ")s") < 0
    ensures |t| > 0 && t[0].NHole? ==> NRenderBound(t)[0] == ':'
    decreases |t|
  {
    if |t| > 0 {
      var rest := NRenderBound(t[1..]);
      NRenderBoundClean(t[1..]);
      match t[0]
      case NLit(s) =>
        LacksConcat(s, rest, '%');
        FindConcat(s, rest, ")s");
      case NHole(x) =>
        LacksConcat(":", x, '%');
        LacksConcat(":" + x, rest, '%');
        LacksConcat(":", x, ')');
        FindAbsent(":" + x, ")s");
        FindConcat(":" + x, rest, ")s");
    }
  }
}
