/** What accepted statements mean, exactly: the business report on the tables they read,
    or nothing at all when an alias has swallowed a NOT. */
module Preservation {
  import opened Text
  import opened SqlAst
  import opened Sql
  import opened Decoding
  import opened Clauses
  import opened ListClauses
  import opened Acceptance
  import opened Business
  import opened Joining
  import opened ProductGroups
  import opened Meaning
  import opened Sorting
  import G = Guardrail

  function RefTo(q: Query, table: string): Table
    requires TwoTables(q)
  {
    if q.from.name.Key() == table then q.from else q.joins[0].table
  }

  function ProductData(q: Query, db: Database): TableData
    requires TwoTables(q)
  {
    Contents(RefTo(q, "PRODUCT"), db)
  }

  function InventoryData(q: Query, db: Database): TableData
    requires TwoTables(q)
  {
    Contents(RefTo(q, "PRODUCTINVENTORY"), db)
  }

  /** The column names of the two tables the statement reads. */
  function ColumnsOf(q: Query, db: Database): Columns
    requires TwoTables(q)
  {
    Columns(ProductData(q, db).columns, InventoryData(q, db).columns)
  }

  /** The tables the statement reads are there and well formed. */
  predicate Readable(q: Query, db: Database)
    requires TwoTables(q)
  {
    && Find(q.from, db).Some? && Find(q.joins[0].table, db).Some?
    && ProductTable(ProductData(q, db)) && InventoryTable(InventoryData(q, db))
  }

  /** The alias under a negated ON. */
  function NegatedAlias(on: Cond): string
    requires on.Not? && on.c.Compare? && on.c.lhs.Column? && on.c.lhs.table.Some?
  {
    on.c.lhs.table.value.Key()
  }

  /** The ON is `NOT x.ProductID = x.ProductID`: never true. */
  predicate Glued(q: Query)
    requires Family(q)
  {
    var on := q.joins[0].on;
    on.Not? && NegatedAlias(on) in {ProductAlias(q), InventoryAlias(q)}
  }

  predicate OnResolves(q: Query)
    requires Family(q)
  {
    q.joins[0].on.Compare? || Glued(q)
  }

  // ------------------------------------------------------------ static checks

  lemma {:induction false} Sides(q: Query)
    requires TwoTables(q)
    ensures RefTo(q, "PRODUCT").alias.Key() == ProductAlias(q)
    ensures RefTo(q, "PRODUCTINVENTORY").alias.Key() == InventoryAlias(q)
    ensures ProductAlias(q) != InventoryAlias(q)
    ensures (RefTo(q, "PRODUCT"), RefTo(q, "PRODUCTINVENTORY")) == (q.from, q.joins[0].table)
         || (RefTo(q, "PRODUCT"), RefTo(q, "PRODUCTINVENTORY")) == (q.joins[0].table, q.from)
  {
    var a, b := q.from.name.Key(), q.joins[0].table.name.Key();
    assert "PRODUCT" in {a, b} && "PRODUCTINVENTORY" in {a, b} && "PRODUCT" != "PRODUCTINVENTORY";
    assert a in G.ALLOWED_TABLES && b in G.ALLOWED_TABLES;
  }

  lemma {:induction false} ScopeOf(q: Query, db: Database)
    requires TwoTables(q)
    ensures FullScope(q, db) == ScopeFor(ProductAlias(q), InventoryAlias(q), ColumnsOf(q, db))
  {
    Sides(q);
    assert q.joins[1..] == [];
    var s := map[q.from.alias.Key() := Contents(q.from, db).columns];
    assert ScopeAfter(q.joins, s, db) == s[q.joins[0].table.alias.Key() := Contents(q.joins[0].table, db).columns];
  }

  lemma {:induction false} KeyPerGroup(e: Expr, keys: seq<Expr>, p: string, c: string, scope: Scope)
    requires GroupKeys(keys, p) && ColumnIs(e, p, c) && c in {"PRODUCTID", "NAME", "SAFETYSTOCKLEVEL"}
    requires p in scope && c in scope[p]
    ensures PerGroup(e, keys, scope) && KindOf(e, scope) == Some(scope[p][c])
  {
    var k := KeyFor(keys, p, c);
  }

  predicate ScopeFits(scope: Scope, p: string, i: string) {
    && p in scope && Has(scope[p], PRODUCT_COLUMNS)
    && i in scope && Has(scope[i], INVENTORY_COLUMNS)
  }

  lemma {:induction false} ClausesSound(q: Query, p: string, i: string, scope: Scope)
    requires ClausesHold(q, p, i) && ScopeFits(scope, p, i)
    ensures forall e <- q.groupBy :: Scalar(e, scope) && KindOf(e, scope).Some? && !Constant(e)
    ensures PerGroupCond(q.having.value, q.groupBy, scope)
    ensures forall x <- q.items :: OutputSound(x.expr, q, scope)
  {
    forall e | e in q.groupBy ensures Scalar(e, scope) && KindOf(e, scope).Some? && !Constant(e) {
      assert GroupKey(e, p);
    }
    var c := q.having.value;
    KeyPerGroup(c.rhs, q.groupBy, p, "SAFETYSTOCKLEVEL", scope);
    forall x | x in q.items ensures PerGroup(x.expr, q.groupBy, scope) && KindOf(x.expr, scope).Some? {
      assert Bound(x, p, i);
      var a := x.alias.value.Key();
      if a != "CURRENTINVENTORY" { KeyPerGroup(x.expr, q.groupBy, p, a, scope); }
    }
  }

  lemma {:induction false} OnSound(on: Cond, p: string, i: string, scope: Scope)
    requires ApprovedOn(on, p, i) && ScopeFits(scope, p, i) && scope.Keys == {p, i}
    ensures ScalarCond(on, scope) <==> on.Compare? || NegatedAlias(on) in {p, i}
  {
    var c := if on.Not? then on.c else on;
  }

  /** The server accepts an approved statement exactly when its ON names its tables and its
      sort keys sort. Where the tables have no further
      column that an approved word names, the statement alone decides. */
  lemma {:induction false} SoundMeans(q: Query, db: Database)
    requires Family(q) && Readable(q, db)
    ensures Sound(q, db) <==> OnResolves(q) && SortKeys(q, ColumnsOf(q, db))
    ensures OnlyRequired(ColumnsOf(q, db), Names(ProductAlias(q), InventoryAlias(q))) ==>
      (Sound(q, db) <==> OnResolves(q) && Sortable(q))
  {
    SoundParts(q, db);
    ScopeOf(q, db);
    KeysMean(q, ColumnsOf(q, db));
    if OnlyRequired(ColumnsOf(q, db), Names(ProductAlias(q), InventoryAlias(q))) { RequiredKeys(q, ColumnsOf(q, db)); }
  }

  /** A first key with a qualifier is accepted exactly when that is Product's alias. */
  lemma {:induction false} FirstKeySound(q: Query, db: Database)
    requires Family(q) && Readable(q, db) && q.orderBy[0].expr.table.Some?
    ensures KeySound(q.orderBy[0], q, FullScope(q, db))
       <==> q.orderBy[0].expr.table.value.Key() == ProductAlias(q)
  {
    ScopeOf(q, db);
    KeyMeans(q, q.orderBy[0].expr, ColumnsOf(q, db));
    FirstKeySorts(q, ColumnsOf(q, db));
  }

  lemma {:induction false} SoundParts(q: Query, db: Database)
    requires Family(q) && Readable(q, db)
    ensures Sound(q, db) <==> OnResolves(q) && KeysSound(q, FullScope(q, db))
  {
    var p, i, scope := ProductAlias(q), InventoryAlias(q), FullScope(q, db);
    Sides(q);
    ScopeOf(q, db);
    ClausesSound(q, p, i, scope);
    OnSound(q.joins[0].on, p, i, scope);
    JoinsSoundMeans(q, db);
  }

  lemma {:induction false} JoinsSoundMeans(q: Query, db: Database)
    requires TwoTables(q) && Find(q.joins[0].table, db).Some?
    ensures JoinsSound(q.joins, map[q.from.alias.Key() := Contents(q.from, db).columns], db)
       <==> ScalarCond(q.joins[0].on, FullScope(q, db))
  {
    assert q.joins[1..] == [];
    var s := map[q.from.alias.Key() := Contents(q.from, db).columns];
    var wider := s[q.joins[0].table.alias.Key() := Contents(q.joins[0].table, db).columns];
    assert JoinsSound(q.joins[1..], wider, db);
    assert ScopeAfter(q.joins[1..], wider, db) == wider;
  }

  // -------------------------------------------------------------- plain joins

  lemma {:induction false} SourceIsJoin(q: Query, db: Database, sv: Server)
    requires |q.joins| == 1 && q.where.None?
    ensures Source(q, db, sv)
         == JoinOne(q.joins[0], Start(q.from.alias.Key(), Contents(q.from, db).rows), Contents(q.joins[0].table, db), sv)
  {
    assert q.joins[1..] == [];
    var joined := JoinOne(q.joins[0], Start(q.from.alias.Key(), Contents(q.from, db).rows), Contents(q.joins[0].table, db), sv);
    assert JoinAll(q.joins[1..], joined, db, sv) == joined;
  }

  lemma {:induction false} PlainSource(q: Query, db: Database, sv: Server)
    requires Family(q) && Readable(q, db) && q.joins[0].on.Compare?
    ensures Carries(Source(q, db, sv), ProductAlias(q), InventoryAlias(q), ProductData(q, db), InventoryData(q, db))
  {
    Sides(q);
    SourceIsJoin(q, db, sv);
    AnyJoinCarries(q.joins[0], ProductAlias(q), InventoryAlias(q), ProductData(q, db), InventoryData(q, db), sv);
  }

  // -------------------------------------------------------------- glued joins

  function Emptied(t: TableData): TableData { TableData(t.columns, []) }

  predicate HasId(r: Row) { "PRODUCTID" in r && r["PRODUCTID"].Int? }

  predicate NeverTrue(on: Cond, b: string) {
    on.Not? && on.c.Compare? && on.c.cmp.Eq? && ColumnIs(on.c.lhs, b, "PRODUCTID") && ColumnIs(on.c.rhs, b, "PRODUCTID")
  }

  lemma {:induction false} NeverMatches(on: Cond, b: string, a: string, x: Row, c: string, rows: seq<Row>, sv: Server)
    requires NeverTrue(on, b) && b in {a, c} && a != c && HasId(x) && forall r <- rows :: HasId(r)
    ensures Matching(on, c, map[a := x], rows, sv) == []
  {
    if rows != [] {
      assert rows[0] in rows;
      assert forall r <- rows[1..] :: r in rows;
      var env: Env := map[a := x][c := rows[0]];
      assert Judge(on.c, [env], sv).True?;
      NeverMatches(on, b, a, x, c, rows[1..], sv);
    }
  }

  /** A condition that never holds joins as if the joined table were empty. */
  lemma {:induction false} NeverJoins(j: Join, plain: Cond, b: string, a: string, left: seq<Row>, data: TableData, sv: Server)
    requires NeverTrue(j.on, b) && b in {a, j.table.alias.Key()} && a != j.table.alias.Key()
    requires (forall x <- left :: HasId(x)) && (forall r <- data.rows :: HasId(r))
    ensures JoinOne(j, Start(a, left), data, sv) == JoinOne(j.(on := plain), Start(a, left), Emptied(data), sv)
  {
    if left != [] {
      assert left[0] in left;
      assert forall x <- left[1..] :: x in left;
      NeverMatches(j.on, b, a, left[0], j.table.alias.Key(), data.rows, sv);
      NeverJoins(j, plain, b, a, left[1..], data, sv);
    }
  }

  function PlainOn(p: string, i: string): Cond {
    Compare(Eq, Column(Some(Name(p, false)), Name("PRODUCTID", false)),
                Column(Some(Name(i, false)), Name("PRODUCTID", false)))
  }

  lemma {:induction false} PlainOnJoins(p: string, i: string)
    requires Upper(p) == p && Upper(i) == i
    ensures PlainJoin(PlainOn(p, i), p, i)
  {
    assert Upper("PRODUCTID") == "PRODUCTID";
  }

  lemma {:induction false} GluedNever(q: Query)
    requires Family(q) && Glued(q)
    ensures NeverTrue(q.joins[0].on, NegatedAlias(q.joins[0].on))
  {
    var on, x := q.joins[0].on, NegatedAlias(q.joins[0].on);
    assert |"NOT" + x| == 3 + |x|;
  }

  lemma {:induction false} GluedJoin(q: Query, plain: Cond, db: Database, sv: Server)
    requires Family(q) && Readable(q, db) && Glued(q)
    ensures
      var j := q.joins[0];
      Source(q, db, sv)
      == JoinOne(j.(on := plain), Start(q.from.alias.Key(), Contents(q.from, db).rows), Emptied(Contents(j.table, db)), sv)
  {
    var j := q.joins[0];
    Sides(q);
    SourceIsJoin(q, db, sv);
    GluedNever(q);
    NeverJoins(j, plain, NegatedAlias(j.on), q.from.alias.Key(), Contents(q.from, db).rows, Contents(j.table, db), sv);
  }

  lemma {:induction false} GluedSource(q: Query, db: Database, sv: Server)
    requires Family(q) && Readable(q, db) && Glued(q)
    ensures
      var p, i, rows := ProductAlias(q), InventoryAlias(q), Source(q, db, sv);
      || Carries(rows, p, i, ProductData(q, db), Emptied(InventoryData(q, db)))
      || Carries(rows, p, i, Emptied(ProductData(q, db)), InventoryData(q, db))
  {
    var p, i, j := ProductAlias(q), InventoryAlias(q), q.joins[0];
    var plain := PlainOn(p, i);
    Sides(q);
    PlainOnJoins(p, i);
    GluedJoin(q, plain, db, sv);
    if j.table.alias.Key() == i {
      AnyJoinCarries(j.(on := plain), p, i, ProductData(q, db), Emptied(InventoryData(q, db)), sv);
    } else {
      AnyJoinCarries(j.(on := plain), p, i, Emptied(ProductData(q, db)), InventoryData(q, db), sv);
    }
  }

  lemma {:induction false} EmptyReport(products: seq<Row>, inventory: seq<Row>)
    requires products == [] || inventory == []
    ensures Report(products, inventory) == []
  {
    if products != [] { EmptyReport(products[1..], inventory); }
  }

  // ------------------------------------------------------------ the meaning

  /** The lines an approved statement's results hold. */
  function Meant(q: Query, db: Database): seq<Shortage>
    requires Family(q)
  {
    if q.joins[0].on.Compare? then Report(ProductData(q, db).rows, InventoryData(q, db).rows) else []
  }

  /** Every result of an approved statement, and whether there is one, for every database. */
  lemma {:induction false} FamilyMeaning(q: Query, db: Database, sv: Server, r: Relation)
    requires Family(q) && Readable(q, db)
    ensures Returns(q, db, sv, r)
       <==> OnResolves(q) && SortKeys(q, ColumnsOf(q, db)) && r == Answer(q, Meant(q, db))
  {
    var p, i := ProductAlias(q), InventoryAlias(q);
    SoundMeans(q, db);
    if Sound(q, db) {
      if q.joins[0].on.Compare? {
        PlainSource(q, db, sv);
        CarriedAnswer(q, db, sv, r, p, i, ProductData(q, db), InventoryData(q, db));
      } else {
        GluedMeaning(q, db, sv, r);
      }
    }
  }

  lemma {:induction false} GluedMeaning(q: Query, db: Database, sv: Server, r: Relation)
    requires Family(q) && Readable(q, db) && Glued(q) && Sound(q, db)
    ensures Returns(q, db, sv, r) <==> r == Answer(q, [])
  {
    var p, i := ProductAlias(q), InventoryAlias(q);
    var products, inventory := ProductData(q, db), InventoryData(q, db);
    GluedSource(q, db, sv);
    EmptyReport(products.rows, []);
    EmptyReport([], inventory.rows);
    if Carries(Source(q, db, sv), p, i, products, Emptied(inventory)) {
      CarriedAnswer(q, db, sv, r, p, i, products, Emptied(inventory));
    } else {
      CarriedAnswer(q, db, sv, r, p, i, Emptied(products), inventory);
    }
  }
}
