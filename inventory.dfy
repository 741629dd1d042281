/** The inventory data-access functions: the two write operations as transitions of
    the stored tables, and the two query builders that take optional filters.

    The tables are abstract: the products with their units, one inventory row per
    product, the append-only transaction log and the expired-products list. Each SQL
    statement the source issues becomes a `Write`, a partial update of those tables;
    a transaction applies its writes in order and commits all of them or none, as
    the transaction runner of the data-access layer does. The outcome of the check
    read (`load_data` never raises, so a failed read looks like a missing row) and
    whether the database accepts the transaction at all are parameters. */
module Inventory {
  import opened Common
  import opened Strings
  import opened Templates
  import opened Database

  /** `EXPIRY_WARNING_DAYS` of the configuration. */
  const ExpiryWarningDays: int := 30

  datatype Stock = Stock(quantity: int, unit: string)

  datatype LogEntry = LogEntry(
    productCode: string, transactionType: string, quantity: int, unit: string,
    referenceId: Value, notes: Value)

  datatype ExpiredRecord = ExpiredRecord(
    productCode: string, quantity: int, unit: string, expiryDate: int,
    removedBy: string, category: Value, notes: Value)

  /** The stored tables: products (code to unit of measure), inventory, the
      transaction log and the expired products. */
  datatype Tables = Tables(
    products: map<string, string>, stock: map<string, Stock>,
    log: seq<LogEntry>, expired: seq<ExpiredRecord>)

  /** Referential integrity: inventory rows, log entries and expired records all
      name known products. */
  predicate Consistent(s: Tables)
  {
    (forall c :: c in s.stock ==> c in s.products) &&
    (forall i :: 0 <= i < |s.log| ==> s.log[i].productCode in s.products) &&
    (forall i :: 0 <= i < |s.expired| ==> s.expired[i].productCode in s.products)
  }

  /** Where a log entry takes its unit from: the product, or a given value. */
  datatype UnitSource = ProductUnit | GivenUnit(unit: string)

  /** The statements the two write operations issue. */
  datatype Write =
    | InsertIfProduct(code: string, quantity: int)   // INSERT ... SELECT ... WHERE EXISTS product
    | Adjust(code: string, delta: int)                // UPDATE inventory SET quantity = quantity + delta
    | Log(code: string, transactionType: string, quantity: int, unit: UnitSource,
          referenceId: Value, notes: Value)            // INSERT INTO inventory_transactions
    | RecordExpired(record: ExpiredRecord)            // INSERT INTO expired_products

  /** One statement against the tables. An insert that would duplicate an inventory
      row, and a log entry or expired record for an unknown product, violate a
      key and fail; an update or a guarded insert that matches no row succeeds
      without changing anything. */
  function Apply(s: Tables, w: Write): Option<Tables>
  {
    match w
    case InsertIfProduct(c, q) =>
      if c !in s.products then Some(s)
      else if c in s.stock then None
      else Some(s.(stock := s.stock[c := Stock(q, s.products[c])]))
    case Adjust(c, d) =>
      if c in s.stock then Some(s.(stock := s.stock[c := s.stock[c].(quantity := s.stock[c].quantity + d)]))
      else Some(s)
    case Log(c, tt, q, u, ref, notes) =>
      if c !in s.products then None
      else
        var unit := match u case ProductUnit => s.products[c] case GivenUnit(x) => x;
        Some(s.(log := s.log + [LogEntry(c, tt, q, unit, ref, notes)]))
    case RecordExpired(r) =>
      if r.productCode !in s.products then None
      else Some(s.(expired := s.expired + [r]))
  }

  /** A transaction of writes: the committed tables, or None when it rolls back
      (a write failed, or the database refused the transaction). */
  function Commit(s: Tables, writes: seq<Write>, healthy: bool): Option<Tables>
  {
    if healthy then RunAll(s, writes, Apply) else None
  }

  /** The check read `SELECT quantity, unit FROM inventory WHERE product_code = ...`:
      the row, or nothing when there is none or the read failed. */
  function CheckRead(s: Tables, code: string, readOk: bool): (r: Option<Stock>)
    ensures r.Some? <==> readOk && code in s.stock
  {
    if readOk && code in s.stock then Some(s.stock[code]) else None
  }

  // ---------------------------------------------------------------------------
  // update_inventory

  /** The statements `update_inventory` issues. */
  function UpdateWrites(s: Tables, code: string, delta: int, transactionType: string,
                        referenceId: Value, notes: Value, readOk: bool): (ws: seq<Write>)
    ensures |ws| == 2 && ws[1] == Log(code, transactionType, delta, ProductUnit, referenceId, notes)
  {
    var first := if CheckRead(s, code, readOk).None? then InsertIfProduct(code, delta) else Adjust(code, delta);
    [first, Log(code, transactionType, delta, ProductUnit, referenceId, notes)]
  }

  /** The tables `update_inventory` commits, or None when it returns false. */
  function Update(s: Tables, code: string, delta: int, transactionType: string,
                  referenceId: Value, notes: Value, readOk: bool, healthy: bool): Option<Tables>
  {
    Commit(s, UpdateWrites(s, code, delta, transactionType, referenceId, notes, readOk), healthy)
  }

  lemma RunTwo(s: Tables, a: Write, b: Write)
    ensures RunAll(s, [a, b], Apply) ==
              match Apply(s, a) case None => None case Some(s') => Apply(s', b)
  {
    assert [a, b][1..] == [b];
    assert [b][1..] == [];
    match Apply(s, a)
    case None =>
    case Some(s1) =>
      assert RunAll(s, [a, b], Apply) == RunAll(s1, [b], Apply);
      match Apply(s1, b)
      case None =>
      case Some(s2) => assert RunAll(s1, [b], Apply) == RunAll(s2, [], Apply);
  }

  /** An existing row changes by exactly the delta, nothing else in the inventory
      changes, and exactly one log entry is appended. */
  lemma UpdateExistingRow(s: Tables, code: string, delta: int, transactionType: string,
                          referenceId: Value, notes: Value)
    requires Consistent(s) && code in s.stock
    ensures Update(s, code, delta, transactionType, referenceId, notes, true, true) ==
              Some(s.(stock := s.stock[code := Stock(s.stock[code].quantity + delta, s.stock[code].unit)],
                      log := s.log + [LogEntry(code, transactionType, delta, s.products[code], referenceId, notes)]))
  {
    RunTwo(s, Adjust(code, delta), Log(code, transactionType, delta, ProductUnit, referenceId, notes));
  }

  /** Without a row, one is created with the delta as quantity only for a known
      product; for an unknown product the log entry violates its key and nothing at
      all is written. */
  lemma UpdateNewRow(s: Tables, code: string, delta: int, transactionType: string,
                     referenceId: Value, notes: Value, readOk: bool)
    requires code !in s.stock
    ensures code in s.products ==>
              Update(s, code, delta, transactionType, referenceId, notes, readOk, true) ==
                Some(s.(stock := s.stock[code := Stock(delta, s.products[code])],
                        log := s.log + [LogEntry(code, transactionType, delta, s.products[code], referenceId, notes)]))
    ensures code !in s.products ==> Update(s, code, delta, transactionType, referenceId, notes, readOk, true).None?
  {
    RunTwo(s, InsertIfProduct(code, delta), Log(code, transactionType, delta, ProductUnit, referenceId, notes));
  }

  /** A failed check read on a product that has a row takes the insert path, which
      duplicates the row: the whole update rolls back. */
  lemma UpdateAfterFailedRead(s: Tables, code: string, delta: int, transactionType: string,
                              referenceId: Value, notes: Value)
    requires code in s.stock && code in s.products
    ensures Update(s, code, delta, transactionType, referenceId, notes, false, true).None?
  {
    RunTwo(s, InsertIfProduct(code, delta), Log(code, transactionType, delta, ProductUnit, referenceId, notes));
  }

  /** Whatever the outcome, a committed update touches only this product's row and
      appends exactly one entry (product, type, delta) to the log. */
  lemma UpdateFrame(s: Tables, code: string, delta: int, transactionType: string,
                    referenceId: Value, notes: Value, readOk: bool, healthy: bool)
    requires Consistent(s)
    requires Update(s, code, delta, transactionType, referenceId, notes, readOk, healthy).Some?
    ensures var t := Update(s, code, delta, transactionType, referenceId, notes, readOk, healthy).value;
      t.products == s.products && t.expired == s.expired && Consistent(t) &&
      (forall c :: c != code ==> (c in t.stock <==> c in s.stock) && (c in s.stock ==> t.stock[c] == s.stock[c])) &&
      code in t.stock &&
      |t.log| == |s.log| + 1 && t.log[..|s.log|] == s.log &&
      t.log[|s.log|].productCode == code && t.log[|s.log|].transactionType == transactionType &&
      t.log[|s.log|].quantity == delta
  {
    var ws := UpdateWrites(s, code, delta, transactionType, referenceId, notes, readOk);
    RunTwo(s, ws[0], ws[1]);
    var t := Update(s, code, delta, transactionType, referenceId, notes, readOk, healthy).value;
    assert t.log[..|s.log|] == s.log;
  }

  /** +10 and then -4 on a known product without a row leave 6 on hand and two log
      entries, +10 and -4. */
  lemma UpdateTwice(s: Tables, code: string, ref1: Value, notes1: Value, ref2: Value, notes2: Value)
    requires Consistent(s) && code in s.products && code !in s.stock
    ensures Update(s, code, 10, "IN", ref1, notes1, true, true).Some?
    ensures var t := Update(s, code, 10, "IN", ref1, notes1, true, true).value;
      var u := Update(t, code, -4, "OUT", ref2, notes2, true, true);
      u.Some? && code in u.value.stock && u.value.stock[code].quantity == 6 &&
      u.value.log == s.log + [LogEntry(code, "IN", 10, s.products[code], ref1, notes1),
                              LogEntry(code, "OUT", -4, s.products[code], ref2, notes2)]
  {
    UpdateNewRow(s, code, 10, "IN", ref1, notes1, true);
    var t := Update(s, code, 10, "IN", ref1, notes1, true, true).value;
    UpdateFrame(s, code, 10, "IN", ref1, notes1, true, true);
    UpdateExistingRow(t, code, -4, "OUT", ref2, notes2);
  }

  /** Nothing guards `update_inventory` against a removal larger than the stock:
      the quantity on hand can become negative. */
  lemma UpdateCanGoNegative(s: Tables, code: string)
    requires Consistent(s) && code in s.stock && s.stock[code].quantity == 3
    ensures var u := Update(s, code, -5, "OUT", Null, Null, true, true);
      u.Some? && code in u.value.stock && u.value.stock[code].quantity == -2
  {
    UpdateExistingRow(s, code, -5, "OUT", Null, Null);
  }

  // ---------------------------------------------------------------------------
  // mark_as_expired

  /** The statements `mark_as_expired` issues, or None when the guard returns false
      before issuing any: no row read, or less on hand than requested. */
  function ExpirePlan(s: Tables, code: string, quantity: int, expiryDate: int, removedBy: string,
                      category: Value, notes: Value, readOk: bool): (r: Option<seq<Write>>)
    ensures r.None? <==> CheckRead(s, code, readOk).None? || s.stock[code].quantity < quantity
    ensures r.Some? ==> |r.value| == 3
  {
    var current := CheckRead(s, code, readOk);
    if current.None? || current.value.quantity < quantity then None
    else
      var unit := current.value.unit;
      Some([Adjust(code, -quantity),
            Log(code, "EXPIRED", -quantity, GivenUnit(unit), Null, notes),
            RecordExpired(ExpiredRecord(code, quantity, unit, expiryDate, removedBy, category, notes))])
  }

  /** The tables `mark_as_expired` commits, or None when it returns false. */
  function Expire(s: Tables, code: string, quantity: int, expiryDate: int, removedBy: string,
                  category: Value, notes: Value, readOk: bool, healthy: bool): Option<Tables>
  {
    match ExpirePlan(s, code, quantity, expiryDate, removedBy, category, notes, readOk)
    case None => None
    case Some(ws) => Commit(s, ws, healthy)
  }

  lemma RunThree(s: Tables, a: Write, b: Write, c: Write)
    ensures RunAll(s, [a, b, c], Apply) ==
              match Apply(s, a) case None => None case Some(s') => RunAll(s', [b, c], Apply)
  {
    assert [a, b, c][1..] == [b, c];
  }

  /** On success: on hand goes down by the quantity, the log gets `EXPIRED` with the
      negated quantity and the row's unit, and the expired list gets the record with
      the quantity as given; the three writes commit together. */
  lemma ExpireSucceeds(s: Tables, code: string, quantity: int, expiryDate: int, removedBy: string,
                       category: Value, notes: Value)
    requires Consistent(s) && code in s.stock && s.stock[code].quantity >= quantity
    ensures
      var unit := s.stock[code].unit;
      Expire(s, code, quantity, expiryDate, removedBy, category, notes, true, true) ==
        Some(s.(stock := s.stock[code := Stock(s.stock[code].quantity - quantity, unit)],
                log := s.log + [LogEntry(code, "EXPIRED", -quantity, unit, Null, notes)],
                expired := s.expired + [ExpiredRecord(code, quantity, unit, expiryDate, removedBy, category, notes)]))
  {
    var unit := s.stock[code].unit;
    var a, b, c := Adjust(code, -quantity), Log(code, "EXPIRED", -quantity, GivenUnit(unit), Null, notes),
      RecordExpired(ExpiredRecord(code, quantity, unit, expiryDate, removedBy, category, notes));
    RunThree(s, a, b, c);
    RunTwo(Apply(s, a).value, b, c);
  }

  /** A committed expiry never leaves a negative quantity for the product, and it
      keeps the tables consistent. */
  lemma ExpireKeepsStock(s: Tables, code: string, quantity: int, expiryDate: int, removedBy: string,
                         category: Value, notes: Value, readOk: bool, healthy: bool)
    requires Consistent(s)
    requires Expire(s, code, quantity, expiryDate, removedBy, category, notes, readOk, healthy).Some?
    ensures var t := Expire(s, code, quantity, expiryDate, removedBy, category, notes, readOk, healthy).value;
      code in t.stock && t.stock[code].quantity >= 0 && Consistent(t) &&
      t.products == s.products &&
      (forall c :: c != code ==> (c in t.stock <==> c in s.stock) && (c in s.stock ==> t.stock[c] == s.stock[c]))
  {
    ExpireSucceeds(s, code, quantity, expiryDate, removedBy, category, notes);
  }

  /** The guard: with no row read, or less on hand than requested, nothing is
      written and the operation fails. */
  lemma ExpireGuard(s: Tables, code: string, quantity: int, expiryDate: int, removedBy: string,
                    category: Value, notes: Value, readOk: bool, healthy: bool)
    requires !readOk || code !in s.stock || s.stock[code].quantity < quantity
    ensures ExpirePlan(s, code, quantity, expiryDate, removedBy, category, notes, readOk).None?
    ensures Expire(s, code, quantity, expiryDate, removedBy, category, notes, readOk, healthy).None?
  {
  }

  // ---------------------------------------------------------------------------
  // The stored tables as an object the two operations update.

  class InventoryStore {
    var products: map<string, string>
    var stock: map<string, Stock>
    var log: seq<LogEntry>
    var expired: seq<ExpiredRecord>

    function Snapshot(): Tables
      reads this
    {
      Tables(products, stock, log, expired)
    }

    constructor (products: map<string, string>)
      ensures Snapshot() == Tables(products, map[], [], [])
    {
      this.products, stock, log, expired := products, map[], [], [];
    }

    /** Commit `writes` as one transaction, or leave everything as it was. */
    method Execute(writes: seq<Write>, healthy: bool) returns (ok: bool)
      modifies this
      ensures ok <==> Commit(old(Snapshot()), writes, healthy).Some?
      ensures Snapshot() == if ok then Commit(old(Snapshot()), writes, healthy).value else old(Snapshot())
    {
      var r := Commit(Snapshot(), writes, healthy);
      ok := r.Some?;
      if ok {
        products, stock, log, expired := r.value.products, r.value.stock, r.value.log, r.value.expired;
      }
    }

    /** `update_inventory`: the row check, then the insert or update and the log
        entry in one transaction. */
    method UpdateInventory(code: string, delta: int, transactionType: string,
                           referenceId: Value, notes: Value, readOk: bool, healthy: bool) returns (ok: bool)
      requires Consistent(Snapshot())
      modifies this
      ensures var r := Update(old(Snapshot()), code, delta, transactionType, referenceId, notes, readOk, healthy);
        ok == r.Some? && Snapshot() == (if ok then r.value else old(Snapshot()))
      ensures Consistent(Snapshot())
    {
      var queries: seq<Write> := [];
      var current := CheckRead(Snapshot(), code, readOk);
      if current.None? {
        queries := queries + [InsertIfProduct(code, delta)];
      } else {
        queries := queries + [Adjust(code, delta)];
      }
      queries := queries + [Log(code, transactionType, delta, ProductUnit, referenceId, notes)];
      ghost var before := Snapshot();
      ok := Execute(queries, healthy);
      if ok {
        UpdateFrame(before, code, delta, transactionType, referenceId, notes, readOk, healthy);
      }
    }

    /** `mark_as_expired`: the guard, then decrement, log and expired record in one
        transaction. */
    method MarkAsExpired(code: string, quantity: int, expiryDate: int, removedBy: string,
                         category: Value, notes: Value, readOk: bool, healthy: bool) returns (ok: bool)
      requires Consistent(Snapshot())
      modifies this
      ensures var r := Expire(old(Snapshot()), code, quantity, expiryDate, removedBy, category, notes, readOk, healthy);
        ok == r.Some? && Snapshot() == (if ok then r.value else old(Snapshot()))
      ensures Consistent(Snapshot())
      ensures ok ==> code in stock && stock[code].quantity >= 0
    {
      var current := CheckRead(Snapshot(), code, readOk);
      if current.None? || current.value.quantity < quantity {
        assert ExpirePlan(Snapshot(), code, quantity, expiryDate, removedBy, category, notes, readOk).None?;
        return false;
      }
      var unit := current.value.unit;
      var queries: seq<Write> := [];
      queries := queries + [Adjust(code, -quantity)];
      queries := queries + [Log(code, "EXPIRED", -quantity, GivenUnit(unit), Null, notes)];
      queries := queries + [RecordExpired(ExpiredRecord(code, quantity, unit, expiryDate, removedBy, category, notes))];
      assert queries == [Adjust(code, -quantity),
                         Log(code, "EXPIRED", -quantity, GivenUnit(unit), Null, notes),
                         RecordExpired(ExpiredRecord(code, quantity, unit, expiryDate, removedBy, category, notes))];
      ghost var before := Snapshot();
      assert ExpirePlan(before, code, quantity, expiryDate, removedBy, category, notes, readOk) == Some(queries);
      ok := Execute(queries, healthy);
      if ok {
        ExpireKeepsStock(before, code, quantity, expiryDate, removedBy, category, notes, readOk, healthy);
      }
    }
  }

  // ---------------------------------------------------------------------------
  // get_inventory_transactions: optional filters as named conditions.

  /** One optional filter: the text before its placeholder, its parameter name and
      its value. */
  datatype Condition = Condition(prefix: NSql, name: NSql, value: Value)

  /** The condition as appended to the list: `prefix%(name)s`. */
  function ConditionText(c: Condition): string
  {
    c.prefix + "%(" + c.name + ")s"
  }

  function ConditionTexts(cs: seq<Condition>): (r: seq<string>)
    ensures |r| == |cs|
  {
    if |cs| == 0 then [] else [ConditionText(cs[0])] + ConditionTexts(cs[1..])
  }

  function Names(cs: seq<Condition>): (r: seq<string>)
    ensures |r| == |cs|
  {
    if |cs| == 0 then [] else [cs[0].name] + Names(cs[1..])
  }

  const And: NSql := " AND "

  /** The conditions joined with ` AND `, after `lead` and before `tail`, as a named
      template. */
  function Conditions(lead: NSql, cs: seq<Condition>, tail: NSql): seq<NPiece>
    requires |cs| > 0
    decreases |cs|
  {
    [NLit(NJoin2(lead, cs[0].prefix)), NHole(cs[0].name)] +
    (if |cs| == 1 then [NLit(tail)] else Conditions(And, cs[1..], tail))
  }

  lemma {:induction false} NRenderTwo(a: NPiece, b: NPiece, rest: seq<NPiece>)
    ensures NRender([a, b] + rest) == NRenderPiece(a) + NRenderPiece(b) + NRender(rest)
  {
    var t := [a, b] + rest;
    var u := t[1..];
    assert u == [b] + rest && u[1..] == rest;
    assert NRender(u) == NRenderPiece(b) + NRender(rest);
  }

  lemma {:induction false} NHoleNamesTwo(a: NPiece, b: NPiece, rest: seq<NPiece>)
    ensures NHoleNames([a, b] + rest) ==
              (if a.NHole? then [a.name] else []) + (if b.NHole? then [b.name] else []) + NHoleNames(rest)
  {
    var t := [a, b] + rest;
    var u := t[1..];
    assert u == [b] + rest && u[1..] == rest;
  }

  lemma {:induction false} ConditionsRender(lead: NSql, cs: seq<Condition>, tail: NSql)
    requires |cs| > 0
    ensures NRender(Conditions(lead, cs, tail)) == lead + Join(ConditionTexts(cs), And) + tail
    decreases |cs|
  {
    if |cs| == 1 {
      ConditionsRenderOne(lead, cs, tail);
    } else {
      ConditionsRender(And, cs[1..], tail);
      ConditionsRenderStep(lead, cs, tail);
    }
  }

  lemma ConditionsRenderOne(lead: NSql, cs: seq<Condition>, tail: NSql)
    requires |cs| == 1
    ensures NRender(Conditions(lead, cs, tail)) == lead + Join(ConditionTexts(cs), And) + tail
  {
    var rest := [NLit(tail)];
    assert Conditions(lead, cs, tail) == [NLit(NJoin2(lead, cs[0].prefix)), NHole(cs[0].name)] + rest;
    NRenderTwo(NLit(NJoin2(lead, cs[0].prefix)), NHole(cs[0].name), rest);
    assert NRender(rest) == tail by { assert rest[1..] == []; }
    assert Join(ConditionTexts(cs), And) == ConditionText(cs[0]) by {
      assert ConditionTexts(cs) == [ConditionText(cs[0])];
    }
    OneText(lead, cs[0].prefix, cs[0].name, tail);
  }

  lemma OneText(lead: string, prefix: string, name: string, tail: string)
    ensures (lead + prefix) + ("%(" + name + ")s") + tail == lead + (prefix + "%(" + name + ")s") + tail
  {
  }

  lemma ConditionsRenderStep(lead: NSql, cs: seq<Condition>, tail: NSql)
    requires |cs| > 1
    requires NRender(Conditions(And, cs[1..], tail)) == And + Join(ConditionTexts(cs[1..]), And) + tail
    ensures NRender(Conditions(lead, cs, tail)) == lead + Join(ConditionTexts(cs), And) + tail
  {
    var rest := Conditions(And, cs[1..], tail);
    NRenderTwo(NLit(NJoin2(lead, cs[0].prefix)), NHole(cs[0].name), rest);
    var more := Join(ConditionTexts(cs[1..]), And);
    JoinTexts(cs);
    StepText(lead, cs[0].prefix, cs[0].name, more, tail);
  }

  lemma JoinTexts(cs: seq<Condition>)
    requires |cs| > 1
    ensures Join(ConditionTexts(cs), And) == ConditionText(cs[0]) + And + Join(ConditionTexts(cs[1..]), And)
  {
    var parts := ConditionTexts(cs);
    assert parts[1..] == ConditionTexts(cs[1..]);
  }

  lemma StepText(lead: string, prefix: string, name: string, more: string, tail: string)
    ensures (lead + prefix) + ("%(" + name + ")s") + (And + more + tail) ==
              lead + ((prefix + "%(" + name + ")s") + And + more) + tail
  {
  }

  lemma {:induction false} ConditionsNames(lead: NSql, cs: seq<Condition>, tail: NSql)
    requires |cs| > 0
    ensures NHoleNames(Conditions(lead, cs, tail)) == Names(cs)
    decreases |cs|
  {
    var a, b := NLit(NJoin2(lead, cs[0].prefix)), NHole(cs[0].name);
    var rest := if |cs| == 1 then [NLit(tail)] else Conditions(And, cs[1..], tail);
    NHoleNamesTwo(a, b, rest);
    if |cs| == 1 {
      assert NHoleNames(rest) == [] by { assert rest[1..] == []; }
    } else {
      ConditionsNames(And, cs[1..], tail);
    }
  }

  lemma {:induction false} ConditionsWellFormed(lead: NSql, cs: seq<Condition>, tail: NSql)
    requires |cs| > 0
    ensures NWellFormed(Conditions(lead, cs, tail))
    ensures Conditions(lead, cs, tail)[0].NLit?
    decreases |cs|
  {
    var t := Conditions(lead, cs, tail);
    var head := NJoin2(lead, cs[0].prefix);
    var rest := if |cs| == 1 then [NLit(tail)] else Conditions(And, cs[1..], tail);
    assert t[1..][1..] == rest;
    FindAbsent(head, ")s");
    if |cs| == 1 {
      FindAbsent(tail, ")s");
      assert NWellFormed(rest) by { assert rest[1..] == []; }
    } else {
      ConditionsWellFormed(And, cs[1..], tail);
    }
  }

  const TxSelect: NSql := NJoin2("SELECT", " it.transaction_id,")
  const TxColumns: NSql := NJoin2(" it.product_code,", " it.quantity")
  const TxFrom: NSql := NJoin2(" FROM", " inventory_transactions it")
  const TxJoin: NSql := " JOIN products p"
  const TxOn: NSql := NJoin2(" ON it.product_code", " = p.product_code")
  const TxWhere: NSql := " WHERE 1=1"
  const TxOrder: NSql := NJoin2(" ORDER BY", " it.transaction_date DESC")

  const StartPrefix: NSql := NJoin2("it.transaction_date", " >= ")
  const EndPrefix: NSql := NJoin2("it.transaction_date", " <= ")
  const ProductPrefix: NSql := "it.product_code = "
  const TypePrefix: NSql := "it.transaction_type = "
  const StartDate: NSql := "start_date"
  const EndDate: NSql := "end_date"
  const ProductCode: NSql := "product_code"
  const TransactionType: NSql := "transaction_type"

  /** The query before any condition (the column list is abridged). */
  function TxBase(): NSql
  {
    NJoin2(NJoin2(NJoin2(TxSelect, TxColumns), TxFrom), NJoin2(NJoin2(TxJoin, TxOn), TxWhere))
  }

  function Opt(b: bool, c: Condition): (r: seq<Condition>)
  {
    if b then [c] else []
  }

  /** The conditions for the filters given, in the fixed order start, end, product,
      type, each only when its value is truthy. */
  function TxConditions(startDate: Value, endDate: Value, productCode: Value, transactionType: Value): seq<Condition>
  {
    Opt(Truthy(startDate), Condition(StartPrefix, StartDate, startDate)) +
    Opt(Truthy(endDate), Condition(EndPrefix, EndDate, endDate)) +
    Opt(Truthy(productCode), Condition(ProductPrefix, ProductCode, productCode)) +
    Opt(Truthy(transactionType), Condition(TypePrefix, TransactionType, transactionType))
  }

  lemma {:induction false} NamesAppend(a: seq<Condition>, b: seq<Condition>)
    ensures Names(a + b) == Names(a) + Names(b)
    decreases |a|
  {
    if |a| > 0 {
      assert (a + b)[0] == a[0] && (a + b)[1..] == a[1..] + b;
      NamesAppend(a[1..], b);
    } else {
      assert a + b == b;
    }
  }

  /** The parameter names appear in the order start, end, product, type, each only
      for a truthy value. */
  lemma TxConditionsNames(startDate: Value, endDate: Value, productCode: Value, transactionType: Value)
    ensures Names(TxConditions(startDate, endDate, productCode, transactionType)) ==
              (if Truthy(startDate) then [StartDate] else []) +
              (if Truthy(endDate) then [EndDate] else []) +
              (if Truthy(productCode) then [ProductCode] else []) +
              (if Truthy(transactionType) then [TransactionType] else [])
  {
    var c1 := Opt(Truthy(startDate), Condition(StartPrefix, StartDate, startDate));
    var c2 := Opt(Truthy(endDate), Condition(EndPrefix, EndDate, endDate));
    var c3 := Opt(Truthy(productCode), Condition(ProductPrefix, ProductCode, productCode));
    var c4 := Opt(Truthy(transactionType), Condition(TypePrefix, TransactionType, transactionType));
    OptNames(Truthy(startDate), Condition(StartPrefix, StartDate, startDate));
    OptNames(Truthy(endDate), Condition(EndPrefix, EndDate, endDate));
    OptNames(Truthy(productCode), Condition(ProductPrefix, ProductCode, productCode));
    OptNames(Truthy(transactionType), Condition(TypePrefix, TransactionType, transactionType));
    NamesAppend(c1, c2);
    NamesAppend(c1 + c2, c3);
    NamesAppend(c1 + c2 + c3, c4);
  }

  lemma OptNames(b: bool, c: Condition)
    ensures Names(Opt(b, c)) == if b then [c.name] else []
  {
    if b {
      assert Opt(b, c)[1..] == [];
    }
  }

  /** The named template of the query. */
  function TxTemplate(cs: seq<Condition>): seq<NPiece>
  {
    if |cs| == 0 then [NLit(NJoin2(TxBase(), TxOrder))]
    else Conditions(NJoin2(TxBase(), And), cs, TxOrder)
  }

  /** The params dictionary as the conditions are added, one key per condition. */
  function ConditionParams(cs: seq<Condition>): (m: map<string, Value>)
  {
    if |cs| == 0 then map[]
    else ConditionParams(cs[..|cs| - 1])[cs[|cs| - 1].name := cs[|cs| - 1].value]
  }

  /** The keys are exactly the names of the conditions. */
  lemma {:induction false} ConditionParamsKeys(cs: seq<Condition>)
    ensures forall k :: k in ConditionParams(cs) <==> k in Names(cs)
    decreases |cs|
  {
    if |cs| > 0 {
      var init, last := cs[..|cs| - 1], cs[|cs| - 1];
      assert cs == init + [last];
      ConditionParamsKeys(init);
      NamesAppend(init, [last]);
      assert Names([last]) == [last.name];
    }
  }

  lemma ConditionParamsExtend(cs: seq<Condition>, c: Condition)
    ensures ConditionParams(cs + [c]) == ConditionParams(cs)[c.name := c.value]
  {
    assert (cs + [c])[..|cs|] == cs;
  }

  /** The filter part of `get_inventory_transactions`: the conditions list and the
      params dictionary, appended to and written for each truthy argument. */
  method TxFilters(startDate: Value, endDate: Value, productCode: Value, transactionType: Value)
    returns (conditions: seq<Condition>, params: map<string, Value>)
    ensures conditions == TxConditions(startDate, endDate, productCode, transactionType)
    ensures params == ConditionParams(conditions)
  {
    conditions, params := [], map[];
    conditions, params := AddFilter(conditions, params, Truthy(startDate), Condition(StartPrefix, StartDate, startDate));
    conditions, params := AddFilter(conditions, params, Truthy(endDate), Condition(EndPrefix, EndDate, endDate));
    conditions, params := AddFilter(conditions, params, Truthy(productCode), Condition(ProductPrefix, ProductCode, productCode));
    conditions, params := AddFilter(conditions, params, Truthy(transactionType),
                                    Condition(TypePrefix, TransactionType, transactionType));
    TxParamsWrites(startDate, endDate, productCode, transactionType);
  }

  /** One `if value:` step: append the condition and write its parameter. */
  method AddFilter(conditions: seq<Condition>, params: map<string, Value>, given: bool, c: Condition)
    returns (conditions': seq<Condition>, params': map<string, Value>)
    ensures conditions' == conditions + Opt(given, c)
    ensures params' == Bind(params, given, c.name, c.value)
  {
    conditions', params' := conditions, params;
    if given {
      conditions' := conditions' + [c];
      params' := params'[c.name := c.value];
    }
  }

  /** `get_inventory_transactions` up to the read: the query text and the params
      dictionary. */
  method TransactionsQuery(startDate: Value, endDate: Value, productCode: Value, transactionType: Value)
    returns (query: string, params: map<string, Value>)
    ensures var cs := TxConditions(startDate, endDate, productCode, transactionType);
      query == NRender(TxTemplate(cs)) && params == ConditionParams(cs)
  {
    var conditions;
    conditions, params := TxFilters(startDate, endDate, productCode, transactionType);
    query := TxBase();
    if |conditions| > 0 {
      query := query + And + Join(ConditionTexts(conditions), And);
      ConditionsRender(NJoin2(TxBase(), And), conditions, TxOrder);
    } else {
      assert NRender(TxTemplate(conditions)) == NJoin2(TxBase(), TxOrder) by {
        assert TxTemplate(conditions)[1..] == [];
      }
    }
    query := query + TxOrder;
  }

  /** A dictionary write done only when `b` holds. */
  function Bind(m: map<string, Value>, b: bool, k: string, v: Value): map<string, Value>
  {
    if b then m[k := v] else m
  }

  /** The params dictionary is the four guarded writes, in order. */
  lemma TxParamsWrites(startDate: Value, endDate: Value, productCode: Value, transactionType: Value)
    ensures ConditionParams(TxConditions(startDate, endDate, productCode, transactionType)) ==
              Bind(Bind(Bind(Bind(map[], Truthy(startDate), StartDate, startDate),
                                  Truthy(endDate), EndDate, endDate),
                             Truthy(productCode), ProductCode, productCode),
                        Truthy(transactionType), TransactionType, transactionType)
  {
    var c1 := Opt(Truthy(startDate), Condition(StartPrefix, StartDate, startDate));
    var c2 := Opt(Truthy(endDate), Condition(EndPrefix, EndDate, endDate));
    var c3 := Opt(Truthy(productCode), Condition(ProductPrefix, ProductCode, productCode));
    ParamsOpt([], Truthy(startDate), Condition(StartPrefix, StartDate, startDate));
    assert [] + c1 == c1;
    ParamsOpt(c1, Truthy(endDate), Condition(EndPrefix, EndDate, endDate));
    ParamsOpt(c1 + c2, Truthy(productCode), Condition(ProductPrefix, ProductCode, productCode));
    ParamsOpt(c1 + c2 + c3, Truthy(transactionType), Condition(TypePrefix, TransactionType, transactionType));
  }

  /** Each filter has a params key exactly when its argument is truthy, bound to
      that argument. */
  lemma TransactionsParams(startDate: Value, endDate: Value, productCode: Value, transactionType: Value)
    ensures var m := ConditionParams(TxConditions(startDate, endDate, productCode, transactionType));
      (Truthy(startDate) <==> "start_date" in m) && (Truthy(startDate) ==> m["start_date"] == startDate) &&
      (Truthy(endDate) <==> "end_date" in m) && (Truthy(endDate) ==> m["end_date"] == endDate) &&
      (Truthy(productCode) <==> "product_code" in m) && (Truthy(productCode) ==> m["product_code"] == productCode) &&
      (Truthy(transactionType) <==> "transaction_type" in m) &&
      (Truthy(transactionType) ==> m["transaction_type"] == transactionType)
  {
    TxParamsWrites(startDate, endDate, productCode, transactionType);
    var m1 := Bind(map[], Truthy(startDate), StartDate, startDate);
    var m2 := Bind(m1, Truthy(endDate), EndDate, endDate);
    var m3 := Bind(m2, Truthy(productCode), ProductCode, productCode);
    var m4 := Bind(m3, Truthy(transactionType), TransactionType, transactionType);
    assert |StartDate| == 10 && |EndDate| == 8 && |ProductCode| == 12 && |TransactionType| == 16;
    BindSame(map[], Truthy(startDate), StartDate, startDate);
    BindOther(m1, Truthy(endDate), EndDate, endDate, StartDate);
    BindOther(m2, Truthy(productCode), ProductCode, productCode, StartDate);
    BindOther(m3, Truthy(transactionType), TransactionType, transactionType, StartDate);
    BindSame(m1, Truthy(endDate), EndDate, endDate);
    assert EndDate !in m1;
    BindOther(m2, Truthy(productCode), ProductCode, productCode, EndDate);
    BindOther(m3, Truthy(transactionType), TransactionType, transactionType, EndDate);
    BindSame(m2, Truthy(productCode), ProductCode, productCode);
    assert ProductCode !in m2;
    BindOther(m3, Truthy(transactionType), TransactionType, transactionType, ProductCode);
    BindSame(m3, Truthy(transactionType), TransactionType, transactionType);
    assert TransactionType !in m3;
  }

  lemma BindSame(m: map<string, Value>, b: bool, k: string, v: Value)
    ensures k in Bind(m, b, k, v) <==> b || k in m
    ensures b ==> Bind(m, b, k, v)[k] == v
  {
  }

  lemma BindOther(m: map<string, Value>, b: bool, k: string, v: Value, other: string)
    requires other != k
    ensures other in Bind(m, b, k, v) <==> other in m
    ensures other in m ==> Bind(m, b, k, v)[other] == m[other]
  {
  }

  lemma ParamsOpt(cs: seq<Condition>, b: bool, c: Condition)
    ensures ConditionParams(cs + Opt(b, c)) ==
              if b then ConditionParams(cs)[c.name := c.value] else ConditionParams(cs)
  {
    if b {
      ConditionParamsExtend(cs, c);
    } else {
      assert cs + Opt(b, c) == cs;
    }
  }

  /** The query is a well-formed named template whose placeholders are exactly the
      included conditions, in order, and it ends with the `ORDER BY`. After the named
      rewrite every placeholder is a `:name` bind whose name is a params key. */
  lemma TransactionsQueryShape(startDate: Value, endDate: Value, productCode: Value, transactionType: Value)
    ensures var cs := TxConditions(startDate, endDate, productCode, transactionType);
      var t := TxTemplate(cs);
      var q := NRender(t);
      NWellFormed(t) && NHoleNames(t) == Names(cs) &&
      |q| >= |TxOrder| && q[|q| - |TxOrder|..] == TxOrder &&
      NamedRewrite(q) == NRenderBound(t) &&
      (forall n :: n in NHoleNames(t) <==> n in ConditionParams(cs))
  {
    TxQueryBinds(TxConditions(startDate, endDate, productCode, transactionType));
  }

  /** The rewritten query binds exactly the parameters in the dictionary. */
  lemma TxQueryBinds(cs: seq<Condition>)
    ensures var t := TxTemplate(cs);
      var q := NRender(t);
      NWellFormed(t) && NHoleNames(t) == Names(cs) &&
      |q| >= |TxOrder| && q[|q| - |TxOrder|..] == TxOrder &&
      NamedRewrite(q) == NRenderBound(t) &&
      (forall n :: n in NHoleNames(t) <==> n in ConditionParams(cs))
  {
    TxTemplateShape(cs);
    NamedRewriteBinds(TxTemplate(cs));
    ConditionParamsKeys(cs);
  }

  /** Whatever conditions are given, the query is well formed, names exactly
      their parameters and ends with the ORDER BY clause. */
  lemma TxTemplateShape(cs: seq<Condition>)
    ensures var t := TxTemplate(cs);
      var q := NRender(t);
      NWellFormed(t) && NHoleNames(t) == Names(cs) &&
      |q| >= |TxOrder| && q[|q| - |TxOrder|..] == TxOrder
  {
    var t := TxTemplate(cs);
    if |cs| > 0 {
      var lead := NJoin2(TxBase(), And);
      ConditionsWellFormed(lead, cs, TxOrder);
      ConditionsNames(lead, cs, TxOrder);
      ConditionsRender(lead, cs, TxOrder);
      EndsWith(lead + Join(ConditionTexts(cs), And), TxOrder);
    } else {
      var x := NJoin2(TxBase(), TxOrder);
      FindAbsent(x, ")s");
      assert NRender(t) == x && NHoleNames(t) == [] by { assert t[1..] == []; }
      EndsWith(TxBase(), TxOrder);
    }
  }

  lemma EndsWith(a: string, b: string)
    ensures (a + b)[|a + b| - |b|..] == b
  {
  }

  // ---------------------------------------------------------------------------
  // get_expiring_soon

  /** The warning date bound to `%(warning_date)s`: today plus the given days, or
      plus `EXPIRY_WARNING_DAYS` when none are given (zero days are kept). */
  function WarningDate(days: Option<int>, today: int): (d: int)
    ensures days.None? ==> d == today + ExpiryWarningDays
    ensures days.Some? ==> d - today == days.value
  {
    today + (if days.None? then ExpiryWarningDays else days.value)
  }

  const ExpSelect: NSql := NJoin2("SELECT i.product_code,", " i.quantity")
  const ExpFrom: NSql := " FROM inventory i"
  const ExpWhere: NSql := " WHERE i.quantity > 0"
  const ExpNotNull: NSql := NJoin2(" AND i.expiry_date", " IS NOT NULL")
  const ExpUpTo: NSql := " AND i.expiry_date <= "
  const ExpFromToday: NSql := NJoin2(" AND i.expiry_date", " >= CURRENT_DATE")
  const ExpOrder: NSql := NJoin2(" ORDER BY", " i.expiry_date")
  const WarningDateName: NSql := "warning_date"

  /** The expiring-soon query (column list abridged): one `%(warning_date)s`. */
  function ExpiringTemplate(): seq<NPiece>
  {
    [NLit(NJoin2(NJoin2(ExpSelect, ExpFrom), NJoin2(NJoin2(ExpWhere, ExpNotNull), ExpUpTo))),
     NHole(WarningDateName),
     NLit(NJoin2(ExpFromToday, ExpOrder))]
  }

  /** `get_expiring_soon` up to the read: the query text and its params. */
  function ExpiringSoon(days: Option<int>, today: int): (string, map<string, Value>)
  {
    (NRender(ExpiringTemplate()), map[WarningDateName := Day(WarningDate(days, today))])
  }

  /** The rewrite turns the one placeholder into a bind, and its name is exactly
      the one params key. */
  lemma ExpiringSoonBinds(days: Option<int>, today: int)
    ensures NamedRewrite(ExpiringSoon(days, today).0) == NRenderBound(ExpiringTemplate())
    ensures forall n :: n in NHoleNames(ExpiringTemplate()) <==> n in ExpiringSoon(days, today).1
  {
    ExpiringTemplateShape();
    NamedRewriteBinds(ExpiringTemplate());
  }

  lemma ExpiringTemplateShape()
    ensures NWellFormed(ExpiringTemplate())
    ensures NHoleNames(ExpiringTemplate()) == [WarningDateName]
  {
    var t := ExpiringTemplate();
    FindAbsent(t[0].text, ")s");
    FindAbsent(t[2].text, ")s");
    assert t[1..][1..] == t[2..] && t[2..][1..] == [];
  }
}
