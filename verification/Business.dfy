/** The business question every accepted statement must answer: the products that have
    stock rows and whose stock falls short of the safety level, by ascending ProductID. */
module Business {
  import opened Sequences
  import opened Text
  import opened Sql

  datatype Shortage = Shortage(productId: int, name: string, currentInventory: int, safetyStockLevel: int)

  function IntAt(r: Row, c: string): int { if c in r && r[c].Int? then r[c].n else 0 }

  function StrAt(r: Row, c: string): string { if c in r && r[c].Str? then r[c].s else "" }

  function Id(r: Row): int { IntAt(r, "PRODUCTID") }

  /** Some stock row belongs to the product. */
  predicate Stocked(inventory: seq<Row>, id: int) { exists r <- inventory :: Id(r) == id }

  /** The product's stock over all locations. */
  function OnHand(inventory: seq<Row>, id: int): int {
    if inventory == [] then 0
    else (if Id(inventory[0]) == id then IntAt(inventory[0], "QUANTITY") else 0) + OnHand(inventory[1..], id)
  }

  predicate Short(d: Row, inventory: seq<Row>) {
    Stocked(inventory, Id(d)) && OnHand(inventory, Id(d)) < IntAt(d, "SAFETYSTOCKLEVEL")
  }

  function Entry(d: Row, inventory: seq<Row>): Shortage {
    Shortage(Id(d), StrAt(d, "NAME"), OnHand(inventory, Id(d)), IntAt(d, "SAFETYSTOCKLEVEL"))
  }

  function Insert(s: Shortage, report: seq<Shortage>): seq<Shortage> {
    if report == [] || s.productId <= report[0].productId then [s] + report
    else [report[0]] + Insert(s, report[1..])
  }

  /** The full report, ascending by ProductID. */
  function Report(products: seq<Row>, inventory: seq<Row>): seq<Shortage> {
    if products == [] then []
    else if Short(products[0], inventory) then
      Insert(Entry(products[0], inventory), Report(products[1..], inventory))
    else Report(products[1..], inventory)
  }

  // ------------------------------------------------------------ well-formed data

  predicate ProductRow(r: Row) {
    && "PRODUCTID" in r && r["PRODUCTID"].Int?
    && "NAME" in r && r["NAME"].Str?
    && "SAFETYSTOCKLEVEL" in r && r["SAFETYSTOCKLEVEL"].Int?
  }

  predicate InventoryRow(r: Row) {
    "PRODUCTID" in r && r["PRODUCTID"].Int? && "QUANTITY" in r && r["QUANTITY"].Int?
  }

  predicate KeyedById(rows: seq<Row>) {
    forall a, b :: 0 <= a < b < |rows| ==> Id(rows[a]) != Id(rows[b])
  }

  const PRODUCT_COLUMNS := map["PRODUCTID" := Numbers, "NAME" := Texts, "SAFETYSTOCKLEVEL" := Numbers]
  const INVENTORY_COLUMNS := map["PRODUCTID" := Numbers, "QUANTITY" := Numbers]

  /** The table has the required columns, each of its kind. */
  predicate Has(columns: map<string, Kind>, required: map<string, Kind>) {
    forall c <- required :: c in columns && columns[c] == required[c]
  }

  /** Product's columns are not null and ProductID is its key. */
  predicate ProductTable(t: TableData) {
    && Has(t.columns, PRODUCT_COLUMNS)
    && (forall r <- t.rows :: ProductRow(r))
    && KeyedById(t.rows)
  }

  predicate InventoryTable(t: TableData) {
    Has(t.columns, INVENTORY_COLUMNS) && forall r <- t.rows :: InventoryRow(r)
  }

  const PRODUCT := TableId("PRODUCTION", "PRODUCT")
  const INVENTORY := TableId("PRODUCTION", "PRODUCTINVENTORY")

  /** A database the start-up check accepts, with keyed products. */
  predicate Stocktaking(db: Database) {
    && PRODUCT in db.tables && ProductTable(db.tables[PRODUCT])
    && INVENTORY in db.tables && InventoryTable(db.tables[INVENTORY])
  }

  // ------------------------------------------------------------ what the report is

  predicate Ascending(s: seq<Shortage>) {
    forall a, b :: 0 <= a < b < |s| ==> s[a].productId < s[b].productId
  }

  predicate Reported(s: Shortage, products: seq<Row>, inventory: seq<Row>) {
    exists d <- products :: Short(d, inventory) && s == Entry(d, inventory)
  }

  lemma {:induction false} InsertMembers(s: Shortage, report: seq<Shortage>, t: Shortage)
    ensures t in Insert(s, report) <==> t == s || t in report
  {
    if report != [] && s.productId > report[0].productId {
      InsertMembers(s, report[1..], t);
      assert report == [report[0]] + report[1..];
    }
  }

  lemma {:induction false} InsertAscends(s: Shortage, report: seq<Shortage>)
    requires Ascending(report) && forall t <- report :: t.productId != s.productId
    ensures Ascending(Insert(s, report))
  {
    if report != [] {
      var first, rest := report[0], Insert(s, report[1..]);
      assert first in report;
      assert forall t <- report[1..] :: t in report;
      if s.productId > first.productId {
        InsertAscends(s, report[1..]);
        forall b | 0 <= b < |rest| ensures first.productId < rest[b].productId {
          InsertMembers(s, report[1..], rest[b]);
          assert rest[b] in rest;
        }
      }
    }
  }

  lemma {:induction false} KeyedTail(products: seq<Row>)
    requires products != [] && KeyedById(products)
    ensures KeyedById(products[1..])
    ensures forall d <- products[1..] :: Id(d) != Id(products[0])
  {
    forall d | d in products[1..] ensures Id(d) != Id(products[0]) {
      var k :| 0 <= k < |products[1..]| && products[1..][k] == d;
      assert products[k + 1] == d;
    }
  }

  /** The report lists exactly the short products, strictly ascending, each once. */
  lemma {:induction false} ReportMeans(products: seq<Row>, inventory: seq<Row>)
    requires KeyedById(products)
    ensures Ascending(Report(products, inventory))
    ensures forall s :: s in Report(products, inventory) <==> Reported(s, products, inventory)
  {
    if products != [] {
      var d, rest := products[0], Report(products[1..], inventory);
      KeyedTail(products);
      ReportMeans(products[1..], inventory);
      forall t | t in rest ensures t.productId != Id(d) {
        assert Reported(t, products[1..], inventory);
      }
      if Short(d, inventory) { InsertAscends(Entry(d, inventory), rest); }
      forall s ensures s in Report(products, inventory) <==> Reported(s, products, inventory) {
        ReportedTail(s, products, inventory);
        InsertMembers(Entry(d, inventory), rest, s);
      }
    }
  }

  lemma {:induction false} ReportedTail(s: Shortage, products: seq<Row>, inventory: seq<Row>)
    requires products != []
    ensures Reported(s, products, inventory)
       <==> (Short(products[0], inventory) && s == Entry(products[0], inventory))
            || Reported(s, products[1..], inventory)
  {
    assert products[0] in products;
    assert forall d <- products[1..] :: d in products;
    assert products == [products[0]] + products[1..];
  }

  lemma {:induction false} HeadsAgree(a: seq<Shortage>, b: seq<Shortage>)
    requires Ascending(a) && Ascending(b) && a != []
    requires forall s :: s in a <==> s in b
    ensures b != [] && a[0] == b[0]
  {
    assert a[0] in b;
    var k :| 0 <= k < |b| && b[k] == a[0];
    assert b[0] in a;
    var m :| 0 <= m < |a| && a[m] == b[0];
  }

  /** Ascending lists with the same members are the same list. */
  lemma {:induction false} AscendingUnique(a: seq<Shortage>, b: seq<Shortage>)
    requires Ascending(a) && Ascending(b)
    requires forall s :: s in a <==> s in b
    ensures a == b
  {
    if a != [] {
      HeadsAgree(a, b);
      forall s ensures s in a[1..] <==> s in b[1..] {
        TailMembers(a, s);
        TailMembers(b, s);
      }
      AscendingUnique(a[1..], b[1..]);
      assert a == [a[0]] + a[1..] && b == [b[0]] + b[1..];
    } else if b != [] {
      HeadsAgree(b, a);
    }
  }

  lemma {:induction false} TailMembers(a: seq<Shortage>, s: Shortage)
    requires a != [] && Ascending(a)
    ensures s in a[1..] <==> s in a && s != a[0]
  {
    assert a == [a[0]] + a[1..];
    if s in a[1..] {
      var k :| 0 <= k < |a[1..]| && a[1..][k] == s;
      assert a[k + 1] == s;
    }
  }

  // ------------------------------------------------------------ determinism

  lemma {:induction false} OnHandConcat(a: seq<Row>, b: seq<Row>, id: int)
    ensures OnHand(a + b, id) == OnHand(a, id) + OnHand(b, id)
  {
    if a == [] { assert a + b == b; }
    else { OnHandConcat(a[1..], b, id); assert (a + b)[1..] == a[1..] + b; }
  }

  /** Stock does not depend on the order of the rows. */
  lemma {:induction false} OnHandPermuted(a: seq<Row>, b: seq<Row>, id: int)
    requires multiset(a) == multiset(b)
    ensures OnHand(a, id) == OnHand(b, id)
  {
    if a == [] {
      assert |multiset(b)| == |b|;
    } else {
      var k := OnePermuted(a, b);
      OnHandPermuted(a[..0] + a[1..], b[..k] + b[k + 1..], id);
      OnHandWithout(a, 0, id);
      OnHandWithout(b, k, id);
    }
  }

  /** The first row of `a` stands somewhere in `b`, and without it they still agree. */
  lemma {:induction false} OnePermuted(a: seq<Row>, b: seq<Row>) returns (k: nat)
    requires multiset(a) == multiset(b) && a != []
    ensures k < |b| && b[k] == a[0]
    ensures multiset(a[..0] + a[1..]) == multiset(b[..k] + b[k + 1..])
  {
    assert a[0] in multiset(a);
    k :| 0 <= k < |b| && b[k] == a[0];
    WithoutOne(a, 0);
    WithoutOne(b, k);
  }

  lemma {:induction false} WithoutOne(a: seq<Row>, k: nat)
    requires k < |a|
    ensures multiset(a[..k] + a[k + 1..]) == multiset(a) - multiset{a[k]}
  {
    assert a == a[..k] + [a[k]] + a[k + 1..];
  }

  lemma {:induction false} OnHandWithout(a: seq<Row>, k: nat, id: int)
    requires k < |a|
    ensures OnHand(a, id) == OnHand(a[..k] + a[k + 1..], id) + (if Id(a[k]) == id then IntAt(a[k], "QUANTITY") else 0)
  {
    var r := [a[k]] + a[k + 1..];
    assert a == a[..k] + r && r[1..] == a[k + 1..];
    OnHandConcat(a[..k], r, id);
    OnHandConcat(a[..k], a[k + 1..], id);
  }

  lemma {:induction false} ReportedPermuted(s: Shortage, p1: seq<Row>, i1: seq<Row>, p2: seq<Row>, i2: seq<Row>)
    requires multiset(p1) == multiset(p2) && multiset(i1) == multiset(i2)
    requires Reported(s, p1, i1)
    ensures Reported(s, p2, i2)
  {
    var d :| d in p1 && Short(d, i1) && s == Entry(d, i1);
    SameMembers(p1, p2);
    SameMembers(i1, i2);
    OnHandPermuted(i1, i2, Id(d));
    var r :| r in i1 && Id(r) == Id(d);
    assert r in i2;
    assert d in p2 && Short(d, i2) && s == Entry(d, i2);
  }

  /** The report depends only on the multisets of rows. */
  lemma {:induction false} ReportPermuted(p1: seq<Row>, i1: seq<Row>, p2: seq<Row>, i2: seq<Row>)
    requires KeyedById(p1) && KeyedById(p2)
    requires multiset(p1) == multiset(p2) && multiset(i1) == multiset(i2)
    ensures Report(p1, i1) == Report(p2, i2)
  {
    ReportMeans(p1, i1);
    ReportMeans(p2, i2);
    forall s ensures s in Report(p1, i1) <==> s in Report(p2, i2) {
      if Reported(s, p1, i1) { ReportedPermuted(s, p1, i1, p2, i2); }
      if Reported(s, p2, i2) { ReportedPermuted(s, p2, i2, p1, i1); }
    }
    AscendingUnique(Report(p1, i1), Report(p2, i2));
  }
}
