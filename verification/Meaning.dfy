/** Meaning preservation: every result of an accepted statement is the business report. */
module Meaning {
  import opened Sequences
  import opened Text
  import opened SqlAst
  import opened Sql
  import opened Decoding
  import opened Clauses
  import opened ListClauses
  import opened Acceptance
  import opened Business
  import opened Joining
  import opened ProductGroups
  import G = Guardrail

  // ----------------------------------------------------------------- answers

  /** The field of a report line that an output name asks for. */
  function Field(s: Shortage, title: string): Value {
    var t := Upper(title);
    if t == "PRODUCTID" then Int(s.productId)
    else if t == "NAME" then Str(s.name)
    else if t == "CURRENTINVENTORY" then Int(s.currentInventory)
    else if t == "SAFETYSTOCKLEVEL" then Int(s.safetyStockLevel)
    else Null
  }

  function Line(header: seq<string>, s: Shortage): (r: seq<Value>)
    ensures |r| == |header| && forall k :: 0 <= k < |r| ==> r[k] == Field(s, header[k])
  {
    seq(|header|, k requires 0 <= k < |header| => Field(s, header[k]))
  }

  function Lines(header: seq<string>, report: seq<Shortage>): (r: seq<seq<Value>>)
    ensures |r| == |report| && forall k :: 0 <= k < |r| ==> r[k] == Line(header, report[k])
  {
    seq(|report|, k requires 0 <= k < |report| => Line(header, report[k]))
  }

  /** The first TOP lines of a report, under the statement's column order. */
  function Answer(q: Query, report: seq<Shortage>): Relation {
    Relation(Header(q.items), Lines(Header(q.items), First(q.top, report)))
  }

  // ----------------------------------------------------------------- ordering

  lemma {:induction false} OutputFinds(items: seq<Item>, e: Expr, p: string, i: string)
    requires (forall x <- items :: Bound(x, p, i)) && (exists x <- items :: OutputOf(x) == "PRODUCTID")
    requires e.Column? && e.table.None? && e.column.Key() == "PRODUCTID"
    ensures ItemNamed(e, items).Some? && ColumnIs(items[ItemNamed(e, items).value].expr, p, "PRODUCTID")
  {
    assert items[0] in items && Bound(items[0], p, i);
    assert Upper(Title(items[0])) == OutputOf(items[0]);
    if OutputOf(items[0]) != "PRODUCTID" {
      assert items == [items[0]] + items[1..];
      assert forall x <- items[1..] :: x in items;
      OutputFinds(items[1..], e, p, i);
    }
  }

  lemma {:induction false} ProductIdListed(items: seq<Item>, p: string, i: string)
    requires BoundItems(items, p, i)
    ensures exists x <- items :: OutputOf(x) == "PRODUCTID"
  {
    AllOutputs(items, p, i);
    assert "PRODUCTID" in OutputNames(items);
    var x :| x in items && x.alias.Some? && "PRODUCTID" == x.alias.value.Key();
    assert OutputOf(x) == "PRODUCTID";
  }

  /** What the first ORDER BY key reads. */
  function FirstKeyExpr(q: Query): Expr
    requires q.orderBy != []
  {
    KeyReads(q.orderBy[0].expr, q.items)
  }

  /** A first key the server accepts reads Product's ProductID. */
  lemma {:induction false} FirstKeyReads(q: Query, p: string, i: string, scope: Scope)
    requires FirstKey(q.orderBy) && BoundItems(q.items, p, i) && GroupKeys(q.groupBy, p)
    requires KeySound(q.orderBy[0], q, scope)
    ensures ColumnIs(FirstKeyExpr(q), p, "PRODUCTID")
  {
    var e := q.orderBy[0].expr;
    if e.table.None? {
      ProductIdListed(q.items, p, i);
      OutputFinds(q.items, e, p, i);
    } else {
      var k :| k in q.groupBy && k.Column? && Resolve(k, scope) == Resolve(e, scope);
      assert GroupKey(k, p);
    }
  }

  /** In the groups kept, ProductID reads the same through either table. */
  lemma {:induction false} EitherAlias(e: Expr, q: Query, rows: seq<Env>, p: string, i: string, products: TableData,
                                       inventory: TableData, g: seq<Env>, sv: Server)
    requires Carries(rows, p, i, products, inventory) && ProductTable(products)
    requires ShortGroups([g], rows, p, products, inventory)
    requires ColumnIs(e, p, "PRODUCTID") || ColumnIs(e, i, "PRODUCTID")
    ensures Eval(e, g, sv) == Int(Id(RowOf(g, p)))
  {
    assert g in [g];
    var d := RowOf(g, p);
    if ColumnIs(e, p, "PRODUCTID") {
      GroupColumn(e, p, "PRODUCTID", g, sv);
    } else {
      assert Offered(products.rows, Id(d));
      StocksMeans(inventory.rows, Id(d));
      assert g[0] in g;
      GroupColumn(e, i, "PRODUCTID", g, sv);
    }
  }

  /** Orders that ORDER BY allows are exactly the orders by ascending ProductID. */
  lemma {:induction false} OrderedById(q: Query, p: string, gs: seq<seq<Env>>, sv: Server)
    requires FirstKey(q.orderBy) && ColumnIs(FirstKeyExpr(q), p, "PRODUCTID")
    requires forall g <- gs :: g != [] && p in g[0] && ProductRow(g[0][p])
    requires forall a, b :: 0 <= a < b < |gs| ==> Id(RowOf(gs[a], p)) != Id(RowOf(gs[b], p))
    ensures Ordered(q, gs, sv) <==>
      forall a, b :: 0 <= a < b < |gs| ==> Id(RowOf(gs[a], p)) < Id(RowOf(gs[b], p))
  {
    forall a, b | 0 <= a < b < |gs|
      ensures !Precedes(q.orderBy, q.items, gs[b], gs[a], sv) <==> Id(RowOf(gs[a], p)) < Id(RowOf(gs[b], p))
    {
      assert gs[a] in gs && gs[b] in gs;
    }
  }

  // ------------------------------------------------------------------ entries

  function Entries(gs: seq<seq<Env>>, p: string, inventory: seq<Row>): (es: seq<Shortage>)
    ensures |es| == |gs| && forall k :: 0 <= k < |es| ==> es[k] == Entry(RowOf(gs[k], p), inventory)
  {
    seq(|gs|, k requires 0 <= k < |gs| => Entry(RowOf(gs[k], p), inventory))
  }

  lemma {:induction false} ItemShown(x: Item, rows: seq<Env>, p: string, i: string, products: TableData,
                                     inventory: TableData, g: seq<Env>, sv: Server)
    requires Bound(x, p, i)
    requires Carries(rows, p, i, products, inventory) && ProductTable(products)
    requires g != [] && p in g[0] && RowOf(g, p) in products.rows && Short(RowOf(g, p), inventory.rows)
    requires g == OfKey(rows, p, Some(Id(RowOf(g, p))))
    ensures Eval(x.expr, g, sv) == Field(Entry(RowOf(g, p), inventory.rows), Title(x))
  {
    var d := RowOf(g, p);
    assert Offered(products.rows, Id(d));
    var a := x.alias.value.Key();
    if a == "CURRENTINVENTORY" {
      GroupSum(x.expr, i, g, inventory.rows, Id(d), sv);
    } else {
      GroupColumn(x.expr, p, a, g, sv);
    }
  }

  lemma {:induction false} GroupsShown(q: Query, rows: seq<Env>, p: string, i: string, products: TableData,
                                       inventory: TableData, gs: seq<seq<Env>>, sv: Server)
    requires BoundItems(q.items, p, i)
    requires Carries(rows, p, i, products, inventory) && ProductTable(products)
    requires forall g <- gs ::
      && g != [] && p in g[0] && RowOf(g, p) in products.rows && Short(RowOf(g, p), inventory.rows)
      && g == OfKey(rows, p, Some(Id(RowOf(g, p))))
    ensures ShowRows(q.items, gs, sv) == Lines(Header(q.items), Entries(gs, p, inventory.rows))
  {
    forall k | 0 <= k < |gs|
      ensures ShowRow(q.items, gs[k], sv) == Line(Header(q.items), Entry(RowOf(gs[k], p), inventory.rows))
    {
      assert gs[k] in gs;
      forall m | 0 <= m < |q.items|
        ensures Eval(q.items[m].expr, gs[k], sv) == Field(Entry(RowOf(gs[k], p), inventory.rows), Title(q.items[m]))
      {
        assert q.items[m] in q.items;
        ItemShown(q.items[m], rows, p, i, products, inventory, gs[k], sv);
      }
    }
  }

  // ------------------------------------------------------------- arrangements

  lemma {:induction false} ClassId(rows: seq<Env>, p: string, products: TableData, d: Row, g: seq<Env>)
    requires ProductTable(products) && d in products.rows
    requires g == OfKey(rows, p, Some(Id(d))) && g != [] && p in g[0] && RowOf(g, p) in products.rows
    ensures RowOf(g, p) == d
  {
    OfKeyMembers(rows, p, Some(Id(d)));
    assert g[0] in g;
  }

  lemma {:induction false} EntryMembers(kept: seq<seq<Env>>, gs: seq<seq<Env>>, rows: seq<Env>, p: string,
                                        products: TableData, inventory: TableData, s: Shortage)
    requires ShortGroups(kept, rows, p, products, inventory) && ProductTable(products)
    requires forall g :: g in gs <==> g in kept
    ensures s in Entries(gs, p, inventory.rows) <==> Reported(s, products.rows, inventory.rows)
  {
    var es := Entries(gs, p, inventory.rows);
    if s in es {
      var k :| 0 <= k < |es| && es[k] == s;
      assert gs[k] in kept;
    }
    if Reported(s, products.rows, inventory.rows) {
      var d :| d in products.rows && Short(d, inventory.rows) && s == Entry(d, inventory.rows);
      var g := OfKey(rows, p, Some(Id(d)));
      assert g in kept && g in gs;
      ClassId(rows, p, products, d, g);
      var k :| 0 <= k < |gs| && gs[k] == g;
      assert es[k] == s;
    }
  }

  /** Every allowed arrangement of the kept groups spells the report. */
  lemma {:induction false} ArrangedReport(q: Query, kept: seq<seq<Env>>, gs: seq<seq<Env>>, rows: seq<Env>, p: string,
                                          products: TableData, inventory: TableData, sv: Server)
    requires FirstKey(q.orderBy) && ColumnIs(FirstKeyExpr(q), p, "PRODUCTID")
    requires ShortGroups(kept, rows, p, products, inventory) && ProductTable(products)
    requires multiset(gs) == multiset(kept) && Ordered(q, gs, sv)
    ensures forall g :: g in gs <==> g in kept
    ensures Entries(gs, p, inventory.rows) == Report(products.rows, inventory.rows)
  {
    Rearranged(kept, gs);
    OrderedById(q, p, gs, sv);
    var es := Entries(gs, p, inventory.rows);
    ReportMeans(products.rows, inventory.rows);
    forall s ensures s in es <==> s in Report(products.rows, inventory.rows) {
      EntryMembers(kept, gs, rows, p, products, inventory, s);
    }
    AscendingUnique(es, Report(products.rows, inventory.rows));
  }

  function Arrange(report: seq<Shortage>, rows: seq<Env>, p: string): (gs: seq<seq<Env>>)
    ensures |gs| == |report| && forall k :: 0 <= k < |gs| ==> gs[k] == OfKey(rows, p, Some(report[k].productId))
  {
    seq(|report|, k requires 0 <= k < |report| => OfKey(rows, p, Some(report[k].productId)))
  }

  lemma {:induction false} ArrangeRow(kept: seq<seq<Env>>, rows: seq<Env>, p: string,
                                      products: TableData, inventory: TableData, s: Shortage)
    requires ShortGroups(kept, rows, p, products, inventory) && ProductTable(products)
    requires Reported(s, products.rows, inventory.rows)
    ensures
      var g := OfKey(rows, p, Some(s.productId));
      g in kept && Id(RowOf(g, p)) == s.productId
  {
    var d :| d in products.rows && Short(d, inventory.rows) && s == Entry(d, inventory.rows);
    ClassId(rows, p, products, d, OfKey(rows, p, Some(Id(d))));
  }

  /** The report itself names an allowed arrangement. */
  lemma {:induction false} ReportArranged(q: Query, kept: seq<seq<Env>>, rows: seq<Env>, p: string,
                                          products: TableData, inventory: TableData, sv: Server)
    requires FirstKey(q.orderBy) && ColumnIs(FirstKeyExpr(q), p, "PRODUCTID")
    requires ShortGroups(kept, rows, p, products, inventory) && ProductTable(products)
    ensures
      var gs := Arrange(Report(products.rows, inventory.rows), rows, p);
      multiset(gs) == multiset(kept) && Ordered(q, gs, sv)
  {
    var report := Report(products.rows, inventory.rows);
    var gs := Arrange(report, rows, p);
    ReportMeans(products.rows, inventory.rows);
    forall k | 0 <= k < |gs| ensures gs[k] in kept && Id(RowOf(gs[k], p)) == report[k].productId {
      assert report[k] in report;
      ArrangeRow(kept, rows, p, products, inventory, report[k]);
    }
    forall g | g in kept ensures g in gs {
      var s := Entry(RowOf(g, p), inventory.rows);
      assert Reported(s, products.rows, inventory.rows);
      var k :| 0 <= k < |report| && report[k] == s;
      assert gs[k] == g;
    }
    Rearranged(kept, gs);
    OrderedById(q, p, gs, sv);
  }

  lemma {:induction false} FirstEntries(n: nat, gs: seq<seq<Env>>, p: string, inventory: seq<Row>)
    ensures Entries(First(n, gs), p, inventory) == First(n, Entries(gs, p, inventory))
    ensures forall g <- First(n, gs) :: g in gs
  {
  }

  // ---------------------------------------------------------------- the core

  lemma {:induction false} ArrangedAnswer(q: Query, gs: seq<seq<Env>>, db: Database, sv: Server, rows: seq<Env>,
                                          p: string, i: string, products: TableData, inventory: TableData)
    requires FirstKey(q.orderBy) && ColumnIs(FirstKeyExpr(q), p, "PRODUCTID") && BoundItems(q.items, p, i)
    requires Carries(rows, p, i, products, inventory) && ProductTable(products)
    requires ShortGroups(Kept(q, db, sv), rows, p, products, inventory)
    requires Arranged(q, gs, db, sv)
    ensures Relation(Header(q.items), ShowRows(q.items, First(q.top, gs), sv))
         == Answer(q, Report(products.rows, inventory.rows))
  {
    ArrangedReport(q, Kept(q, db, sv), gs, rows, p, products, inventory, sv);
    FirstEntries(q.top, gs, p, inventory.rows);
    GroupsShown(q, rows, p, i, products, inventory, First(q.top, gs), sv);
  }

  /** Rows that carry the stock of `products` answer with the report on them. */
  lemma {:induction false} CarriedAnswer(q: Query, db: Database, sv: Server, r: Relation,
                                         p: string, i: string, products: TableData, inventory: TableData)
    requires ClausesHold(q, p, i) && FirstKey(q.orderBy) && Sound(q, db)
    requires Carries(Source(q, db, sv), p, i, products, inventory) && ProductTable(products)
    ensures Returns(q, db, sv, r) <==> r == Answer(q, Report(products.rows, inventory.rows))
  {
    var rows := Source(q, db, sv);
    assert q.orderBy[0] in q.orderBy;
    FirstKeyReads(q, p, i, FullScope(q, db));
    RowsSplit(q.groupBy, p, rows, products, sv);
    GroupsAreClasses(q.groupBy, p, rows, sv);
    ShortKept(q.having.value, AllGroups(q, db, sv), rows, p, i, products, inventory, sv);
    AnswersOnly(q, db, sv, r, rows, p, i, products, inventory);
  }

  lemma {:induction false} AnswersOnly(q: Query, db: Database, sv: Server, r: Relation, rows: seq<Env>,
                                       p: string, i: string, products: TableData, inventory: TableData)
    requires FirstKey(q.orderBy) && ColumnIs(FirstKeyExpr(q), p, "PRODUCTID") && BoundItems(q.items, p, i)
    requires Carries(rows, p, i, products, inventory) && ProductTable(products) && Sound(q, db)
    requires ShortGroups(Kept(q, db, sv), rows, p, products, inventory)
    ensures Returns(q, db, sv, r) <==> r == Answer(q, Report(products.rows, inventory.rows))
  {
    if Returns(q, db, sv, r) {
      var gs :| Arranged(q, gs, db, sv) && r == Relation(Header(q.items), ShowRows(q.items, First(q.top, gs), sv));
      ArrangedAnswer(q, gs, db, sv, rows, p, i, products, inventory);
    }
    var gs := Arrange(Report(products.rows, inventory.rows), rows, p);
    ReportArranged(q, Kept(q, db, sv), rows, p, products, inventory, sv);
    assert Arranged(q, gs, db, sv);
    ArrangedAnswer(q, gs, db, sv, rows, p, i, products, inventory);
  }
}
