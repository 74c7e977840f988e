/** What the guardrail guarantees about the statements it passes, and exactly when. */
module Guarantee {
  import opened Text
  import opened SqlAst
  import opened Printed
  import opened Sections
  import opened Sql
  import opened Decoding
  import opened Clauses
  import opened ListClauses
  import opened Acceptance
  import opened Business
  import opened Joining
  import opened ProductGroups
  import opened Meaning
  import opened Sorting
  import opened Preservation
  import Tables
  import Spacing
  import G = Guardrail

  function BusinessReport(db: Database): seq<Shortage>
    requires Stocktaking(db)
  {
    Report(db.tables[PRODUCT].rows, db.tables[INVENTORY].rows)
  }

  /** Neither alias is the other with NOT in front. */
  predicate AliasesApart(q: Query)
    requires TwoTables(q)
  {
    ProductAlias(q) != "NOT" + InventoryAlias(q) && InventoryAlias(q) != "NOT" + ProductAlias(q)
  }

  predicate Qualified(q: Query)
    requires TwoTables(q)
  {
    q.from.schema.Some? && q.joins[0].table.schema.Some?
  }

  lemma {:induction false} ReadsProduction(q: Query, db: Database)
    requires TwoTables(q) && Stocktaking(db) && (Qualified(q) || db.defaultSchema == "PRODUCTION")
    ensures Readable(q, db)
    ensures ProductData(q, db) == db.tables[PRODUCT] && InventoryData(q, db) == db.tables[INVENTORY]
  {
    Sides(q);
    var a, b := q.from.name.Key(), q.joins[0].table.name.Key();
    assert a in {a, b} && b in {a, b};
    assert "PRODUCT" in {a, b} && "PRODUCTINVENTORY" in {a, b};
  }

  lemma {:induction false} ApartNotGlued(q: Query)
    requires Family(q) && AliasesApart(q)
    ensures !Glued(q)
  {
    var on := q.joins[0].on;
    if on.Not? {
      assert |"NOT" + NegatedAlias(on)| == 3 + |NegatedAlias(on)|;
    }
  }

  /** The aliases are apart, and both tables are those of the Production schema. */
  predicate ReadsStock(q: Query, db: Database)
    requires TwoTables(q)
  {
    AliasesApart(q) && (Qualified(q) || db.defaultSchema == "PRODUCTION")
  }

  /** Meaning preservation. For every accepted statement whose aliases are apart, every
      database and every server: the results are exactly the first TOP lines of the business
      report, provided unqualified tables default to the Production schema. */
  lemma {:induction false} MeaningPreserved(q: Query, db: Database, sv: Server, r: Relation)
    requires WellFormed(q) && G.Decision(SqlText(q)).Accepted?
    requires Stocktaking(db)
    ensures Family(q)
    ensures ReadsStock(q, db) ==>
      (Returns(q, db, sv, r) <==>
         q.joins[0].on.Compare? && SortKeys(q, ColumnsOf(q, db)) && r == Answer(q, BusinessReport(db)))
    ensures ReadsStock(q, db) && OnlyRequired(ColumnsOf(q, db), Names(ProductAlias(q), InventoryAlias(q))) ==>
      (SortKeys(q, ColumnsOf(q, db)) <==> Sortable(q))
  {
    ExactAcceptance(q);
    if ReadsStock(q, db) { StockMeaning(q, db, sv, r); }
  }

  lemma {:induction false} StockMeaning(q: Query, db: Database, sv: Server, r: Relation)
    requires Family(q) && Stocktaking(db) && ReadsStock(q, db)
    ensures Returns(q, db, sv, r) <==>
      q.joins[0].on.Compare? && SortKeys(q, ColumnsOf(q, db)) && r == Answer(q, BusinessReport(db))
    ensures OnlyRequired(ColumnsOf(q, db), Names(ProductAlias(q), InventoryAlias(q))) ==>
      (SortKeys(q, ColumnsOf(q, db)) <==> Sortable(q))
  {
    ReadsProduction(q, db);
    ApartNotGlued(q);
    FamilyMeaning(q, db, sv, r);
    if OnlyRequired(ColumnsOf(q, db), Names(ProductAlias(q), InventoryAlias(q))) { RequiredKeys(q, ColumnsOf(q, db)); }
  }

  /** The text is the statement, with any white space in and around it and possibly a
      semicolon after it. */
  ghost predicate LaidOut(q: Query, text: string) { Spacing.Spells(text, Spacing.Squash(Print(q))) }

  lemma {:induction false} LayoutCleaned(q: Query, text: string)
    requires WellFormed(q) && LaidOut(q, text)
    ensures Spacing.Squash(Lex(G.Clean(text))) == Spacing.Squash(Print(q))
  {
    PrintFragment(q);
    FragmentBare(Print(q));
    Spacing.SpelledCleans(text, Spacing.Squash(Print(q)));
  }

  lemma {:induction false} FragmentBare(f: seq<Token>)
    requires Fragment(f)
    ensures Spacing.Bare(Spacing.Squash(f))
  {
    assert f[|f| - 1] in f;
  }

  /** However it is laid out, a statement is accepted exactly when it is in the family, and
      what is sent on differs from the printed statement in white space only. */
  lemma {:induction false} AnyLayout(q: Query, text: string)
    requires WellFormed(q) && LaidOut(q, text)
    ensures G.Decision(text).Accepted? <==> Family(q)
    ensures G.Decision(text).Accepted? ==> Spacing.Alike(G.Decision(text).sql, SqlText(q))
  {
    Unchanged(q);
    LayoutCleaned(q, text);
    Spacing.CleanedVerdict(text, SqlText(q));
    ExactAcceptance(q);
  }

  // ------------------------------------------------------- independence

  /** INNER, bare and LEFT joins give the same results. */
  lemma {:induction false} JoinKindIrrelevant(q: Query, kind: JoinKind, db: Database, sv: Server, r: Relation)
    requires Family(q) && Readable(q, db)
    ensures Returns(q, db, sv, r) <==> Returns(q.(joins := [q.joins[0].(kind := kind)]), db, sv, r)
  {
    var other := q.(joins := [q.joins[0].(kind := kind)]);
    FamilyMeaning(q, db, sv, r);
    SameSetting(q, other, db);
    FamilyMeaning(other, db, sv, r);
  }

  lemma {:induction false} SameSetting(q: Query, other: Query, db: Database)
    requires Family(q) && Readable(q, db)
    requires |other.joins| == 1 && other.joins[0].on == q.joins[0].on
    requires (other.from == q.from && other.joins[0].table == q.joins[0].table)
          || (other.from == q.joins[0].table && other.joins[0].table == q.from)
    requires other == q.(from := other.from, joins := other.joins)
    ensures Family(other) && Readable(other, db)
    ensures OnResolves(q) <==> OnResolves(other)
    ensures SortKeys(q, ColumnsOf(q, db)) <==> SortKeys(other, ColumnsOf(other, db))
    ensures Answer(q, Meant(q, db)) == Answer(other, Meant(other, db))
  {
    SidesKept(q, other);
  }

  lemma {:induction false} SidesKept(q: Query, other: Query)
    requires TwoTables(q) && |other.joins| == 1
    requires (other.from == q.from && other.joins[0].table == q.joins[0].table)
          || (other.from == q.joins[0].table && other.joins[0].table == q.from)
    ensures TwoTables(other)
    ensures ProductAlias(other) == ProductAlias(q) && InventoryAlias(other) == InventoryAlias(q)
    ensures RefTo(other, "PRODUCT") == RefTo(q, "PRODUCT")
    ensures RefTo(other, "PRODUCTINVENTORY") == RefTo(q, "PRODUCTINVENTORY")
  {
    Sides(q);
    var a, b := q.from.name.Key(), q.joins[0].table.name.Key();
    assert {b, a} == {a, b};
    Sides(other);
  }

  /** Either table may stand after FROM. */
  lemma {:induction false} JoinSideIrrelevant(q: Query, db: Database, sv: Server, r: Relation)
    requires Family(q) && Readable(q, db)
    ensures Returns(q, db, sv, r)
       <==> Returns(q.(from := q.joins[0].table, joins := [q.joins[0].(table := q.from)]), db, sv, r)
  {
    var other := q.(from := q.joins[0].table, joins := [q.joins[0].(table := q.from)]);
    FamilyMeaning(q, db, sv, r);
    SameSetting(q, other, db);
    FamilyMeaning(other, db, sv, r);
  }

  /** The later ORDER BY keys change nothing, as long as the server accepts them. */
  lemma {:induction false} LaterKeysIrrelevant(q: Query, db: Database, sv: Server, r: Relation)
    requires Family(q) && Readable(q, db)
    ensures Returns(q, db, sv, r)
       <==> SortKeys(q, ColumnsOf(q, db)) && Returns(q.(orderBy := [q.orderBy[0]]), db, sv, r)
  {
    var one := q.(orderBy := [q.orderBy[0]]);
    assert q.orderBy[0] in q.orderBy;
    FamilyMeaning(q, db, sv, r);
    FamilyMeaning(one, db, sv, r);
  }

  predicate SameData(a: TableData, b: TableData) { a.columns == b.columns && multiset(a.rows) == multiset(b.rows) }

  /** Only the multisets of rows matter. */
  lemma {:induction false} RowOrderIrrelevant(q: Query, db1: Database, db2: Database, sv: Server, r: Relation)
    requires Family(q) && Readable(q, db1) && Readable(q, db2)
    requires SameData(ProductData(q, db1), ProductData(q, db2))
    requires SameData(InventoryData(q, db1), InventoryData(q, db2))
    ensures Returns(q, db1, sv, r) <==> Returns(q, db2, sv, r)
  {
    FamilyMeaning(q, db1, sv, r);
    FamilyMeaning(q, db2, sv, r);
    ReportPermuted(ProductData(q, db1).rows, InventoryData(q, db1).rows,
                   ProductData(q, db2).rows, InventoryData(q, db2).rows);
  }

  // ----------------------------------------------------------- exactly when

  /** The server accepts the statement on the required columns. */
  predicate Runs(q: Query)
    requires Family(q)
  {
    OnResolves(q) && Sortable(q)
  }

  /** On every database, every result is the business answer. */
  ghost predicate Faithful(q: Query) {
    forall db: Database, sv: Server, r: Relation ::
      Stocktaking(db) && Returns(q, db, sv, r) ==> r == Answer(q, BusinessReport(db))
  }

  const SAMPLE_PRODUCT: Row := map["PRODUCTID" := Int(1), "NAME" := Str("A"), "SAFETYSTOCKLEVEL" := Int(1)]
  const SAMPLE_STOCK: Row := map["PRODUCTID" := Int(1), "QUANTITY" := Int(0)]

  /** One product below its safety level in Production, none in the other schema. */
  function Sample(schema: string): Database {
    Database(
      map[
        TableId("DBO", "PRODUCT") := TableData(REQUIRED.product, []),
        TableId("DBO", "PRODUCTINVENTORY") := TableData(REQUIRED.inventory, []),
        PRODUCT := TableData(REQUIRED.product, [SAMPLE_PRODUCT]),
        INVENTORY := TableData(REQUIRED.inventory, [SAMPLE_STOCK])],
      schema)
  }

  lemma {:induction false} SampleReport(schema: string)
    ensures Stocktaking(Sample(schema))
    ensures BusinessReport(Sample(schema)) == [Shortage(1, "A", 0, 1)]
  {
    SampleShort();
  }

  lemma {:induction false} SampleShort()
    ensures ProductRow(SAMPLE_PRODUCT) && InventoryRow(SAMPLE_STOCK)
    ensures Report([SAMPLE_PRODUCT], [SAMPLE_STOCK]) == [Shortage(1, "A", 0, 1)]
  {
    assert SAMPLE_STOCK in [SAMPLE_STOCK];
    assert [SAMPLE_STOCK][1..] == [] && [SAMPLE_PRODUCT][1..] == [];
    assert OnHand([SAMPLE_STOCK], 1) == 0;
    assert Entry(SAMPLE_PRODUCT, [SAMPLE_STOCK]) == Shortage(1, "A", 0, 1);
    assert Report([], [SAMPLE_STOCK]) == [];
  }

  lemma {:induction false} SampleReads(q: Query, schema: string)
    requires TwoTables(q) && schema in {"DBO", "PRODUCTION"}
    ensures Readable(q, Sample(schema))
    ensures ColumnsOf(q, Sample(schema)) == REQUIRED
    ensures schema == "DBO" && !Qualified(q) ==>
      ProductData(q, Sample(schema)).rows == [] || InventoryData(q, Sample(schema)).rows == []
  {
    Sides(q);
    ApprovedTables(q);
    SampleTable(q.from, schema);
    SampleTable(q.joins[0].table, schema);
  }

  lemma {:induction false} ApprovedTables(q: Query)
    requires TwoTables(q)
    ensures q.from.name.Key() in {"PRODUCT", "PRODUCTINVENTORY"}
    ensures q.joins[0].table.name.Key() in {"PRODUCT", "PRODUCTINVENTORY"}
    ensures RefTo(q, "PRODUCT").name.Key() == "PRODUCT" && RefTo(q, "PRODUCTINVENTORY").name.Key() == "PRODUCTINVENTORY"
  {
    var a, b := q.from.name.Key(), q.joins[0].table.name.Key();
    assert a in {a, b} && b in {a, b};
    assert "PRODUCT" in {a, b} && "PRODUCTINVENTORY" in {a, b} && "PRODUCT" != "PRODUCTINVENTORY";
  }

  /** What a table reference reads in the sample. */
  lemma {:induction false} SampleTable(t: Table, schema: string)
    requires Tables.SchemaOk(t) && t.name.Key() in {"PRODUCT", "PRODUCTINVENTORY"} && schema in {"DBO", "PRODUCTION"}
    ensures Find(t, Sample(schema)).Some?
    ensures var d := Contents(t, Sample(schema));
      && (t.name.Key() == "PRODUCT" ==> ProductTable(d) && d.columns == REQUIRED.product)
      && (t.name.Key() == "PRODUCTINVENTORY" ==> InventoryTable(d) && d.columns == REQUIRED.inventory)
      && (schema == "DBO" && t.schema.None? ==> d.rows == [])
  {
    SampleShort();
  }

  lemma {:induction false} Unfaithful(q: Query, db: Database, sv: Server, r: Relation)
    requires Stocktaking(db) && Returns(q, db, sv, r) && r != Answer(q, BusinessReport(db))
    ensures !Faithful(q)
  {
  }

  /** A statement that reads nothing on the sample misses its one short product. */
  lemma {:induction false} SampleMissed(q: Query, schema: string)
    requires Family(q) && Runs(q) && schema in {"DBO", "PRODUCTION"}
    requires Meant(q, Sample(schema)) == []
    ensures !Faithful(q)
  {
    var sv := Server((a, b) => 0, (op, a, b) => Null, (fn, vs) => Null);
    SampleReads(q, schema);
    SampleReport(schema);
    FamilyMeaning(q, Sample(schema), sv, Answer(q, []));
    Unfaithful(q, Sample(schema), sv, Answer(q, []));
  }

  lemma {:induction false} UnqualifiedMissed(q: Query)
    requires Family(q) && Runs(q) && !Qualified(q)
    ensures !Faithful(q)
  {
    SampleReads(q, "DBO");
    EmptyReport(ProductData(q, Sample("DBO")).rows, InventoryData(q, Sample("DBO")).rows);
    SampleMissed(q, "DBO");
  }

  lemma {:induction false} QualifiedFaithful(q: Query)
    requires Family(q) && Qualified(q) && !Glued(q)
    ensures Faithful(q)
  {
    forall db: Database, sv: Server, r: Relation | Stocktaking(db) && Returns(q, db, sv, r)
      ensures r == Answer(q, BusinessReport(db))
    {
      ReadsProduction(q, db);
      FamilyMeaning(q, db, sv, r);
    }
  }

  lemma {:induction false} AcceptedFamily(q: Query)
    requires WellFormed(q)
    ensures G.Decision(SqlText(q)).Accepted? <==> Family(q)
  {
    ExactAcceptance(q);
  }

  lemma {:induction false} FamilyFaithful(q: Query)
    requires Family(q) && Runs(q)
    ensures Faithful(q) <==> Qualified(q) && !Glued(q)
  {
    if Glued(q) { SampleMissed(q, "PRODUCTION"); }
    else if Qualified(q) { QualifiedFaithful(q); }
    else { UnqualifiedMissed(q); }
  }

  /** An accepted statement that runs is faithful if and only if both its tables are
      qualified and no alias has swallowed a NOT. */
  lemma {:induction false} FaithfulExactly(q: Query)
    requires WellFormed(q) && G.Decision(SqlText(q)).Accepted?
    ensures Family(q)
    ensures Runs(q) ==> (Faithful(q) <==> Qualified(q) && !Glued(q))
  {
    AcceptedFamily(q);
    if Runs(q) { FamilyFaithful(q); }
  }

  // ---------------------------------------------------------- alias pairs

  function Plain(text: string): Name { Name(text, false) }

  function Col(t: Name, c: string): Expr { Column(Some(t), Plain(c)) }

  function ProductionTable(name: string, alias: Name): Table { Table(Some(Plain("Production")), Plain(name), alias) }

  /** The statement the prompt describes, with a join condition of choice. */
  function Standard(p: Name, i: Name, on: Cond): Query {
    Query(
      10,
      [Item(Col(p, "ProductID"), Some(Plain("ProductID"))),
       Item(Col(p, "Name"), Some(Plain("Name"))),
       Item(Call(Sum, Col(i, "Quantity")), Some(Plain("CurrentInventory"))),
       Item(Col(p, "SafetyStockLevel"), Some(Plain("SafetyStockLevel")))],
      ProductionTable("Product", p),
      [Join(InnerJoin, ProductionTable("ProductInventory", i), on)],
      None,
      [Col(p, "ProductID"), Col(p, "Name"), Col(p, "SafetyStockLevel")],
      Some(Compare(Lt, Call(Sum, Col(i, "Quantity")), Col(p, "SafetyStockLevel"))),
      [OrderKey(Col(p, "ProductID"), Some(Asc))])
  }

  lemma {:induction false} Spellings()
    ensures Upper("Production") == "PRODUCTION" && Upper("Product") == "PRODUCT"
    ensures Upper("ProductInventory") == "PRODUCTINVENTORY" && Upper("ProductID") == "PRODUCTID"
    ensures Upper("Name") == "NAME" && Upper("Quantity") == "QUANTITY"
    ensures Upper("SafetyStockLevel") == "SAFETYSTOCKLEVEL" && Upper("CurrentInventory") == "CURRENTINVENTORY"
  {
  }

  const SOURCE_KEYS := {"PRODUCTION", "PRODUCT", "PRODUCTINVENTORY", "PRODUCTID", "NAME", "QUANTITY",
                        "SAFETYSTOCKLEVEL", "CURRENTINVENTORY"}

  lemma {:induction false} KeysUnreserved()
    ensures SOURCE_KEYS !! G.RESERVED_WORDS
  {
  }

  lemma {:induction false} NamesOk(text: string)
    requires Upper(text) in SOURCE_KEYS && text != "" && forall c <- text :: IsIdentStart(c)
    ensures NameOk(Plain(text))
  {
    KeysUnreserved();
    assert text[0] in text;
  }

  lemma {:induction false} TableNamesOk()
    ensures NameOk(Plain("Production")) && NameOk(Plain("Product")) && NameOk(Plain("ProductInventory"))
    ensures NameOk(Plain("Quantity")) && NameOk(Plain("CurrentInventory"))
  {
    Spellings();
    NamesOk("Production"); NamesOk("Product"); NamesOk("ProductInventory");
    NamesOk("Quantity"); NamesOk("CurrentInventory");
  }

  lemma {:induction false} ColumnNamesOk()
    ensures NameOk(Plain("ProductID")) && NameOk(Plain("Name")) && NameOk(Plain("SafetyStockLevel"))
  {
    Spellings();
    NamesOk("ProductID"); NamesOk("Name"); NamesOk("SafetyStockLevel");
  }

  lemma {:induction false} ColumnsOk(p: Name, i: Name)
    requires NameOk(p) && NameOk(i)
    ensures ExprOk(Col(p, "ProductID")) && ExprOk(Col(p, "Name")) && ExprOk(Col(p, "SafetyStockLevel"))
    ensures ExprOk(Call(Sum, Col(i, "Quantity")))
  {
    TableNamesOk();
    ColumnNamesOk();
  }

  lemma {:induction false} StandardItemsOk(p: Name, i: Name, on: Cond)
    requires NameOk(p) && NameOk(i)
    ensures forall x <- Standard(p, i, on).items :: ItemOk(x)
  {
    TableNamesOk();
    ColumnNamesOk();
    ColumnsOk(p, i);
  }

  lemma {:induction false} StandardKeysOk(p: Name, i: Name, on: Cond)
    requires NameOk(p) && NameOk(i)
    ensures forall e <- Standard(p, i, on).groupBy :: ExprOk(e)
    ensures forall k <- Standard(p, i, on).orderBy :: ExprOk(k.expr)
    ensures CondOk(Standard(p, i, on).having.value)
  {
    ColumnsOk(p, i);
  }

  lemma {:induction false} StandardWellFormed(p: Name, i: Name, on: Cond)
    requires NameOk(p) && NameOk(i) && CondOk(on)
    ensures WellFormed(Standard(p, i, on))
  {
    StandardItemsOk(p, i, on);
    StandardKeysOk(p, i, on);
    TableNamesOk();
  }

  lemma {:induction false} StandardTables(p: Name, i: Name, on: Cond)
    requires p.Key() != i.Key()
    ensures var q := Standard(p, i, on);
      TwoTables(q) && Qualified(q) && ProductAlias(q) == p.Key() && InventoryAlias(q) == i.Key()
  {
    Spellings();
    assert "PRODUCT" != "PRODUCTINVENTORY";
  }

  lemma {:induction false} StandardLists(p: Name, i: Name, on: Cond)
    ensures var q := Standard(p, i, on);
      && BoundItems(q.items, p.Key(), i.Key()) && OutputsNamed(q.items)
      && GroupKeys(q.groupBy, p.Key())
  {
    StandardItems(p, i, on);
    StandardGroups(p, i, on);
  }

  lemma {:induction false} StandardItems(p: Name, i: Name, on: Cond)
    ensures BoundItems(Standard(p, i, on).items, p.Key(), i.Key()) && OutputsNamed(Standard(p, i, on).items)
  {
    Spellings();
    var xs := Standard(p, i, on).items;
    assert OutputOf(xs[0]) == "PRODUCTID" && OutputOf(xs[1]) == "NAME";
    assert OutputOf(xs[2]) == "CURRENTINVENTORY" && OutputOf(xs[3]) == "SAFETYSTOCKLEVEL";
  }

  lemma {:induction false} StandardGroups(p: Name, i: Name, on: Cond)
    ensures GroupKeys(Standard(p, i, on).groupBy, p.Key())
  {
    Spellings();
    var es := Standard(p, i, on).groupBy;
    assert ColumnOf(es[0]) == "PRODUCTID" && ColumnOf(es[1]) == "NAME" && ColumnOf(es[2]) == "SAFETYSTOCKLEVEL";
  }

  lemma {:induction false} StandardClauses(p: Name, i: Name, on: Cond)
    ensures var q := Standard(p, i, on);
      && BelowSafetyStock(q.having.value, p.Key(), i.Key())
      && FirstKey(q.orderBy) && KeysKnown(q.orderBy, Names(p.Key(), i.Key()))
  {
    Spellings();
    WordsKnown(p.Key(), i.Key());
  }

  /** Approved exactly when its join condition is. */
  lemma {:induction false} StandardFamily(p: Name, i: Name, on: Cond)
    requires p.Key() != i.Key() && ApprovedOn(on, p.Key(), i.Key())
    ensures Family(Standard(p, i, on))
  {
    StandardTables(p, i, on);
    StandardLists(p, i, on);
    StandardClauses(p, i, on);
  }

  lemma {:induction false} StandardSorts(p: Name, i: Name, on: Cond)
    requires p.Key() != i.Key()
    ensures TwoTables(Standard(p, i, on))
    ensures Sortable(Standard(p, i, on))
  {
    StandardTables(p, i, on);
    Spellings();
  }

  /** `NOT x.ProductID = x.ProductID`. */
  function NotSelf(x: Name): Cond { Not(Compare(Eq, Col(x, "ProductID"), Col(x, "ProductID"))) }

  lemma {:induction false} GluedApproved(p: Name, i: Name, x: Name)
    requires NameOk(p) && NameOk(i)
    requires (x == i && p.Key() == "NOT" + i.Key()) || (x == p && i.Key() == "NOT" + p.Key())
    ensures p.Key() != i.Key() && CondOk(NotSelf(x)) && ApprovedOn(NotSelf(x), p.Key(), i.Key())
  {
    var on := NotSelf(x);
    Spellings();
    ColumnNamesOk();
    assert |p.Key()| != |i.Key()|;
    assert NegatedJoin(on, p.Key(), i.Key()) || NegatedJoin(on, i.Key(), p.Key());
    WordsKnown(p.Key(), i.Key());
  }

  /** When one alias is NOT and the other, the guardrail passes a statement that asks nothing. */
  lemma {:induction false} GluedPasses(p: Name, i: Name, x: Name)
    requires NameOk(p) && NameOk(i)
    requires (x == i && p.Key() == "NOT" + i.Key()) || (x == p && i.Key() == "NOT" + p.Key())
    ensures
      var q := Standard(p, i, NotSelf(x));
      WellFormed(q) && G.Decision(SqlText(q)) == G.Accepted(SqlText(q)) && !Faithful(q)
  {
    var on := NotSelf(x);
    var q := Standard(p, i, on);
    GluedApproved(p, i, x);
    StandardWellFormed(p, i, on);
    StandardFamily(p, i, on);
    ExactAcceptance(q);
    GluedUnfaithful(p, i, x);
  }

  lemma {:induction false} GluedUnfaithful(p: Name, i: Name, x: Name)
    requires p.Key() != i.Key() && (x == p || x == i) && Family(Standard(p, i, NotSelf(x)))
    ensures !Faithful(Standard(p, i, NotSelf(x)))
  {
    var q := Standard(p, i, NotSelf(x));
    StandardTables(p, i, NotSelf(x));
    StandardSorts(p, i, NotSelf(x));
    assert NegatedAlias(q.joins[0].on) == x.Key();
    FamilyFaithful(q);
  }

  /** Accepted, qualified, under the given aliases. */
  predicate AcceptedUnder(q: Query, p: string, i: string) {
    && WellFormed(q) && G.Decision(SqlText(q)).Accepted?
    && TwoTables(q) && Qualified(q) && ProductAlias(q) == p && InventoryAlias(q) == i
  }

  /** A pair of aliases is safe, for every qualified statement the guardrail accepts with
      it, if and only if neither alias is the other with NOT in front. */
  lemma {:induction false} AliasesExactly(p: Name, i: Name)
    requires NameOk(p) && NameOk(i)
    ensures (forall q | AcceptedUnder(q, p.Key(), i.Key()) :: Faithful(q))
       <==> p.Key() != "NOT" + i.Key() && i.Key() != "NOT" + p.Key()
  {
    if p.Key() == "NOT" + i.Key() || i.Key() == "NOT" + p.Key() {
      var x := if p.Key() == "NOT" + i.Key() then i else p;
      var q := Standard(p, i, NotSelf(x));
      assert |p.Key()| != |i.Key()|;
      GluedPasses(p, i, x);
      StandardTables(p, i, NotSelf(x));
      assert AcceptedUnder(q, p.Key(), i.Key());
    } else {
      forall q | AcceptedUnder(q, p.Key(), i.Key()) ensures Faithful(q) { ApartFaithful(q); }
    }
  }

  lemma {:induction false} ApartFaithful(q: Query)
    requires WellFormed(q) && G.Decision(SqlText(q)).Accepted?
    requires TwoTables(q) && Qualified(q) && AliasesApart(q)
    ensures Faithful(q)
  {
    AcceptedFamily(q);
    ApartNotGlued(q);
    QualifiedFaithful(q);
  }
}
