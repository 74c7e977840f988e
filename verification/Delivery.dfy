/** Which accepted statements the server runs, and which of them deliver the business answer. */
module Delivery {
  import opened Text
  import opened SqlAst
  import opened Sql
  import opened Clauses
  import opened Acceptance
  import opened Business
  import opened Meaning
  import opened Sorting
  import opened Preservation
  import opened Guarantee
  import V = Vocabulary
  import G = Guardrail

  // ------------------------------------------------------------ sort orders

  function Equal(p: Name, i: Name): Cond { Compare(Eq, Col(p, "ProductID"), Col(i, "ProductID")) }

  /** The statement the prompt describes, with sort keys of choice. */
  function Sorted(p: Name, i: Name, ks: seq<OrderKey>): Query { Standard(p, i, Equal(p, i)).(orderBy := ks) }

  lemma {:induction false} SortedFamily(p: Name, i: Name, ks: seq<OrderKey>)
    requires p.Key() != i.Key() && FirstKey(ks) && KeysKnown(ks, Names(p.Key(), i.Key()))
    ensures Family(Sorted(p, i, ks)) && OnResolves(Sorted(p, i, ks)) && Qualified(Sorted(p, i, ks))
    ensures ProductAlias(Sorted(p, i, ks)) == p.Key() && InventoryAlias(Sorted(p, i, ks)) == i.Key()
  {
    var s := Standard(p, i, Equal(p, i));
    Spellings();
    StandardFamily(p, i, Equal(p, i));
    StandardTables(p, i, Equal(p, i));
    assert TwoTables(Sorted(p, i, ks)) && ProductAlias(Sorted(p, i, ks)) == ProductAlias(s);
  }

  /** The guardrail passes any sort keys made of approved words after an ascending ProductID;
      the server accepts them only as far as they sort. */
  lemma {:induction false} OrderPasses(p: Name, i: Name, ks: seq<OrderKey>, db: Database)
    requires NameOk(p) && NameOk(i) && p.Key() != i.Key()
    requires FirstKey(ks) && KeysKnown(ks, Names(p.Key(), i.Key())) && forall k <- ks :: ExprOk(k.expr)
    ensures var q := Sorted(p, i, ks);
      && WellFormed(q) && G.Decision(SqlText(q)) == G.Accepted(SqlText(q)) && Family(q)
      && (Readable(q, db) ==> (Sound(q, db) <==> SortKeys(q, ColumnsOf(q, db))))
  {
    var q := Sorted(p, i, ks);
    ColumnNamesOk();
    StandardWellFormed(p, i, Equal(p, i));
    SortedFamily(p, i, ks);
    ExactAcceptance(q);
    if Readable(q, db) { SoundMeans(q, db); }
  }

  function Ascending(t: Name, c: string): OrderKey { OrderKey(Col(t, c), Some(Asc)) }

  /** Ways in which a server refuses sort keys. */
  datatype Refusal =
    | StockId | StockQuantity
    | TextSummed | TextSubtracted
    | FarPosition | ConstantKey
    | RepeatedColumn | RepeatedPosition

  /** A key that spoils an order by ProductID. */
  function Spoiler(p: Name, i: Name, why: Refusal): Expr {
    match why
    case StockId => Col(i, "ProductID")
    case StockQuantity => Col(i, "Quantity")
    case TextSummed => Call(Sum, Col(p, "Name"))
    case TextSubtracted => Arith(Sub, Col(p, "Name"), Col(p, "Name"))
    case FarPosition => Number(9)
    case ConstantKey => Arith(Add, Number(1), Number(1))
    case RepeatedColumn => Col(p, "ProductID")
    case RepeatedPosition => Number(1)
  }

  /** Sort keys that no server takes. */
  function Unsortable(p: Name, i: Name, why: Refusal): seq<OrderKey> {
    var last := OrderKey(Spoiler(p, i, why), Some(Asc));
    if why.StockId? then [last] else [Ascending(p, "ProductID"), last]
  }

  lemma {:induction false} UnsortableKeys(p: Name, i: Name, why: Refusal)
    requires NameOk(p) && NameOk(i)
    ensures var ks := Unsortable(p, i, why);
      && FirstKey(ks) && KeysKnown(ks, Names(p.Key(), i.Key()))
      && forall k <- ks :: ExprOk(k.expr)
  {
    SpoilerKnown(p, i, why);
    ColumnKnown(p, i, p, "ProductID");
  }

  lemma {:induction false} ColumnKnown(p: Name, i: Name, t: Name, c: string)
    requires NameOk(p) && NameOk(i) && (t == p || t == i) && c in {"ProductID", "Name", "Quantity"}
    ensures ExprOk(Col(t, c)) && V.ExprKnown(Col(t, c), Names(p.Key(), i.Key()))
  {
    Spellings();
    TableNamesOk();
    ColumnNamesOk();
    WordsKnown(p.Key(), i.Key());
  }

  lemma {:induction false} SpoilerKnown(p: Name, i: Name, why: Refusal)
    requires NameOk(p) && NameOk(i)
    ensures ExprOk(Spoiler(p, i, why)) && V.ExprKnown(Spoiler(p, i, why), Names(p.Key(), i.Key()))
    ensures why.StockId? ==> FirstKey(Unsortable(p, i, why))
    ensures FirstKey([Ascending(p, "ProductID")])
  {
    Spellings();
    match why
    case StockId => ColumnKnown(p, i, i, "ProductID");
    case StockQuantity => ColumnKnown(p, i, i, "Quantity");
    case TextSummed => ColumnKnown(p, i, p, "Name");
    case TextSubtracted => ColumnKnown(p, i, p, "Name");
    case RepeatedColumn => ColumnKnown(p, i, p, "ProductID");
    case _ =>
  }

  lemma {:induction false} UnsortableFails(p: Name, i: Name, why: Refusal, cs: Columns)
    requires p.Key() != i.Key() && Complete(cs) && TwoTables(Sorted(p, i, Unsortable(p, i, why)))
    requires ProductAlias(Sorted(p, i, Unsortable(p, i, why))) == p.Key()
    requires InventoryAlias(Sorted(p, i, Unsortable(p, i, why))) == i.Key()
    ensures !SortKeys(Sorted(p, i, Unsortable(p, i, why)), cs)
  {
    var q := Sorted(p, i, Unsortable(p, i, why));
    var last := q.orderBy[|q.orderBy| - 1];
    assert last in q.orderBy;
    if why.RepeatedColumn? || why.RepeatedPosition? {
      Spellings();
      assert SortsBy(q.orderBy[0].expr, q.items) == SortsBy(q.orderBy[1].expr, q.items);
    } else {
      SpoilerRefused(p, i, why, cs);
    }
  }

  lemma {:induction false} SpoilerRefused(p: Name, i: Name, why: Refusal, cs: Columns)
    requires p.Key() != i.Key() && Complete(cs) && !why.RepeatedColumn? && !why.RepeatedPosition?
    ensures !SortKey(Spoiler(p, i, why), p.Key(), i.Key(), cs)
  {
    Spellings();
    if why.FarPosition? { FourKeys(); }
    if why.TextSummed? || why.TextSubtracted? { NameIsText(p, i, cs); }
  }

  lemma {:induction false} NameIsText(p: Name, i: Name, cs: Columns)
    requires Complete(cs)
    ensures Yields(Col(p, "Name"), p.Key(), i.Key(), cs) == Some(Texts)
  {
    Spellings();
    assert "NAME" in PRODUCT_COLUMNS;
  }

  /** Under every pair of aliases the guardrail passes all these orders, and the server refuses
      them on every database. */
  lemma {:induction false} OrderRefused(p: Name, i: Name, why: Refusal, db: Database)
    requires NameOk(p) && NameOk(i) && p.Key() != i.Key()
    ensures
      var q := Sorted(p, i, Unsortable(p, i, why));
      && WellFormed(q) && G.Decision(SqlText(q)) == G.Accepted(SqlText(q)) && Family(q)
      && (Readable(q, db) ==> !Sound(q, db))
  {
    var ks := Unsortable(p, i, why);
    UnsortableKeys(p, i, why);
    OrderPasses(p, i, ks, db);
    SortedFamily(p, i, ks);
    if Readable(Sorted(p, i, ks), db) { UnsortableFails(p, i, why, ColumnsOf(Sorted(p, i, ks), db)); }
  }

  // ------------------------------------------------------ unqualified tables

  /** The statement the prompt describes, with Product unqualified. */
  function Unqualified(p: Name, i: Name): Query {
    var q := Standard(p, i, Equal(p, i));
    q.(from := q.from.(schema := None))
  }

  /** Under every pair of aliases the guardrail passes a statement that names Product without
      its schema, and that misses the report where the default schema is another. */
  lemma {:induction false} UnqualifiedPasses(p: Name, i: Name)
    requires NameOk(p) && NameOk(i) && p.Key() != i.Key()
    ensures var q := Unqualified(p, i);
      WellFormed(q) && G.Decision(SqlText(q)) == G.Accepted(SqlText(q)) && !Faithful(q)
  {
    var q := Unqualified(p, i);
    ColumnNamesOk();
    StandardWellFormed(p, i, Equal(p, i));
    UnqualifiedFamily(p, i);
    ExactAcceptance(q);
    UnqualifiedMissed(q);
  }

  lemma {:induction false} UnqualifiedFamily(p: Name, i: Name)
    requires p.Key() != i.Key()
    ensures Family(Unqualified(p, i)) && Runs(Unqualified(p, i)) && !Qualified(Unqualified(p, i))
  {
    var s := Standard(p, i, Equal(p, i));
    Spellings();
    StandardFamily(p, i, Equal(p, i));
    StandardTables(p, i, Equal(p, i));
    StandardSorts(p, i, Equal(p, i));
    assert TwoTables(Unqualified(p, i));
    assert ProductAlias(Unqualified(p, i)) == ProductAlias(s) && InventoryAlias(Unqualified(p, i)) == InventoryAlias(s);
  }

  // ------------------------------------------------------- answers, exactly

  /** The approved tables are there, without further columns that approved words name. */
  predicate Ordinary(q: Query, db: Database)
    requires TwoTables(q)
  {
    && Stocktaking(db)
    && OnlyRequired(Columns(db.tables[PRODUCT].columns, db.tables[INVENTORY].columns),
                    Names(ProductAlias(q), InventoryAlias(q)))
  }

  /** On every such database the statement runs, and returns the business answer only. */
  ghost predicate Delivers(q: Query)
    requires TwoTables(q)
  {
    forall db: Database, sv: Server, r: Relation ::
      Ordinary(q, db) ==> (Returns(q, db, sv, r) <==> r == Answer(q, BusinessReport(db)))
  }

  lemma {:induction false} SampleOrdinary(q: Query, schema: string)
    requires TwoTables(q)
    ensures Ordinary(q, Sample(schema))
  {
    SampleReport(schema);
  }

  lemma {:induction false} SampleAnswer(q: Query, schema: string)
    requires 1 <= q.top
    ensures Stocktaking(Sample(schema)) && Answer(q, BusinessReport(Sample(schema))) != Answer(q, [])
  {
    SampleReport(schema);
    assert |Answer(q, BusinessReport(Sample(schema))).rows| == 1;
  }

  lemma {:induction false} Undelivered(q: Query, db: Database, sv: Server)
    requires TwoTables(q) && Ordinary(q, db) && !Returns(q, db, sv, Answer(q, BusinessReport(db)))
    ensures !Delivers(q)
  {
  }

  lemma {:induction false} SampleUndelivered(q: Query, schema: string)
    requires Family(q) && schema in {"DBO", "PRODUCTION"}
    requires !Runs(q) || Meant(q, Sample(schema)) == []
    ensures !Delivers(q)
  {
    var sv := Server((a, b) => 0, (op, a, b) => Null, (fn, vs) => Null);
    SampleReads(q, schema);
    SampleAnswer(q, schema);
    SampleOrdinary(q, schema);
    FamilyMeaning(q, Sample(schema), sv, Answer(q, BusinessReport(Sample(schema))));
    Undelivered(q, Sample(schema), sv);
  }

  lemma {:induction false} DeliversWhen(q: Query)
    requires Family(q) && Qualified(q) && q.joins[0].on.Compare? && Sortable(q)
    ensures Delivers(q)
  {
    forall db: Database, sv: Server, r: Relation | Ordinary(q, db)
      ensures Returns(q, db, sv, r) <==> r == Answer(q, BusinessReport(db))
    {
      ReadsProduction(q, db);
      FamilyMeaning(q, db, sv, r);
      RequiredKeys(q, ColumnsOf(q, db));
    }
  }

  /** An accepted statement delivers the business answer on every ordinary database if and only
      if both its tables are qualified, its ON is the plain equality and its sort keys sort. */
  lemma {:induction false} DeliversExactly(q: Query)
    requires WellFormed(q) && G.Decision(SqlText(q)).Accepted?
    ensures Family(q)
    ensures Delivers(q) <==> Qualified(q) && q.joins[0].on.Compare? && Sortable(q)
  {
    AcceptedFamily(q);
    if !Runs(q) { SampleUndelivered(q, "PRODUCTION"); }
    else if !q.joins[0].on.Compare? { SampleUndelivered(q, "PRODUCTION"); }
    else if Qualified(q) { DeliversWhen(q); }
    else {
      SampleReads(q, "DBO");
      EmptyReport(ProductData(q, Sample("DBO")).rows, InventoryData(q, Sample("DBO")).rows);
      SampleUndelivered(q, "DBO");
    }
  }
}
