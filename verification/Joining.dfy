/** What the approved join leaves for grouping, whatever its kind and whichever table it
    starts from: per product, exactly that product's stock. */
module Joining {
  import opened Sequences
  import opened Text
  import opened SqlAst
  import opened Sql
  import opened Decoding
  import opened Business

  /** The ProductID a joined row carries on the product side; none when null-extended. */
  function KeyId(env: Env, p: string): Option<int> {
    if p in env && "PRODUCTID" in env[p] && env[p]["PRODUCTID"].Int? then Some(env[p]["PRODUCTID"].n) else None
  }

  function IfKey(env: Env, p: string, key: Option<int>): seq<Env> {
    if KeyId(env, p) == key then [env] else []
  }

  function OfKey(rows: seq<Env>, p: string, key: Option<int>): seq<Env> {
    if rows == [] then [] else IfKey(rows[0], p, key) + OfKey(rows[1..], p, key)
  }

  function IfStock(env: Env, i: string): seq<Value> {
    if i in env && "QUANTITY" in env[i] && !env[i]["QUANTITY"].Null? then [env[i]["QUANTITY"]] else []
  }

  /** The quantities of joined rows, nulls left out. */
  function Stock(rows: seq<Env>, i: string): seq<Value> {
    if rows == [] then [] else IfStock(rows[0], i) + Stock(rows[1..], i)
  }

  /** The quantities stocked of one product. */
  function Stocks(inventory: seq<Row>, id: int): seq<Value> {
    if inventory == [] then []
    else (if Id(inventory[0]) == id then [Int(IntAt(inventory[0], "QUANTITY"))] else []) + Stocks(inventory[1..], id)
  }

  predicate Offered(products: seq<Row>, id: int) { exists d <- products :: Id(d) == id }

  predicate FromProduct(env: Env, p: string, products: TableData) {
    p in env && (env[p] in products.rows || env[p] == NullRow(products.columns))
  }

  /** Every row of the group is linked to a stock row of the product. */
  predicate Linked(rows: seq<Env>, i: string, id: int) {
    forall env <- rows :: i in env && InventoryRow(env[i]) && Id(env[i]) == id
  }

  /** The rows carry the product's stock and, if there is any, nothing else. */
  predicate Stocking(rows: seq<Env>, i: string, inventory: seq<Row>, id: int) {
    && Stock(rows, i) == Stocks(inventory, id)
    && (Stocks(inventory, id) != [] ==> Linked(rows, i, id))
  }

  /** The joined rows carry, per product, exactly its stock. */
  ghost predicate Carries(rows: seq<Env>, p: string, i: string, products: TableData, inventory: TableData) {
    && (forall env <- rows :: FromProduct(env, p, products))
    && (forall id :: Offered(products.rows, id) ==> Stocking(OfKey(rows, p, Some(id)), i, inventory.rows, id))
  }

  // ---------------------------------------------------------------- algebra

  lemma {:induction false} OfKeyConcat(a: seq<Env>, b: seq<Env>, p: string, key: Option<int>)
    ensures OfKey(a + b, p, key) == OfKey(a, p, key) + OfKey(b, p, key)
  {
    if a == [] { assert a + b == b; }
    else {
      OfKeyConcat(a[1..], b, p, key);
      Uncons(a, b);
      Assoc(IfKey(a[0], p, key), OfKey(a[1..], p, key), OfKey(b, p, key));
    }
  }

  lemma {:induction false} StockConcat(a: seq<Env>, b: seq<Env>, i: string)
    ensures Stock(a + b, i) == Stock(a, i) + Stock(b, i)
  {
    if a == [] { assert a + b == b; }
    else {
      StockConcat(a[1..], b, i);
      Uncons(a, b);
      Assoc(IfStock(a[0], i), Stock(a[1..], i), Stock(b, i));
    }
  }

  lemma {:induction false} OfKeyAll(rows: seq<Env>, p: string, key: Option<int>, other: Option<int>)
    requires forall env <- rows :: KeyId(env, p) == key
    ensures OfKey(rows, p, other) == if key == other then rows else []
  {
    if rows != [] {
      assert rows[0] in rows;
      assert forall env <- rows[1..] :: env in rows;
      OfKeyAll(rows[1..], p, key, other);
    }
  }

  lemma {:induction false} OfKeyMembers(rows: seq<Env>, p: string, key: Option<int>)
    ensures forall env :: env in OfKey(rows, p, key) <==> env in rows && KeyId(env, p) == key
  {
    if rows != [] {
      OfKeyMembers(rows[1..], p, key);
      assert rows == [rows[0]] + rows[1..];
    }
  }

  lemma {:induction false} StocksMeans(inventory: seq<Row>, id: int)
    ensures AllInts(Stocks(inventory, id))
    ensures Total(Stocks(inventory, id)) == OnHand(inventory, id)
    ensures Stocks(inventory, id) != [] <==> Stocked(inventory, id)
  {
    if inventory != [] {
      var rest := Stocks(inventory[1..], id);
      StocksMeans(inventory[1..], id);
      assert [] + rest == rest;
    }
  }

  // ------------------------------------------------------------- conditions

  predicate BothKnown(env: Env, p: string, i: string) {
    p in env && i in env && ProductRow(env[p]) && InventoryRow(env[i])
  }

  /** The plain join condition compares the two ProductIDs. */
  lemma {:induction false} PlainJudged(on: Cond, p: string, i: string, env: Env, sv: Server)
    requires PlainJoin(on, p, i) && BothKnown(env, p, i)
    ensures Judge(on, [env], sv).True? <==> Id(env[p]) == Id(env[i])
  {
    if EqualColumns(on, p, i) {
    } else {
    }
  }

  // ------------------------------------------------- starting from the products

  lemma {:induction false} MatchStock(on: Cond, p: string, i: string, d: Row, rows: seq<Row>, sv: Server)
    requires PlainJoin(on, p, i) && p != i && ProductRow(d) && forall r <- rows :: InventoryRow(r)
    ensures
      var found := Matching(on, i, map[p := d], rows, sv);
      && (forall env <- found :: p in env && env[p] == d)
      && Linked(found, i, Id(d))
      && Stock(found, i) == Stocks(rows, Id(d))
  {
    if rows != [] {
      assert rows[0] in rows;
      assert forall r <- rows[1..] :: r in rows;
      var env: Env := map[p := d][i := rows[0]];
      PlainJudged(on, p, i, env, sv);
      MatchStock(on, p, i, d, rows[1..], sv);
      var rest := Matching(on, i, map[p := d], rows[1..], sv);
      if Id(d) == Id(rows[0]) { assert ([env] + rest)[1..] == rest; } else { assert [] + rest == rest; }
    }
  }

  /** A product next to its stock rows, or next to nulls. */
  lemma {:induction false} ProductExtended(j: Join, p: string, i: string, d: Row, inventory: TableData, sv: Server)
    requires PlainJoin(j.on, p, i) && j.table.alias.Key() == i && p != i
    requires ProductRow(d) && InventoryTable(inventory)
    ensures
      var rows := Extend(j, map[p := d], inventory, sv);
      (forall env <- rows :: p in env && env[p] == d) && Stocking(rows, i, inventory.rows, Id(d))
  {
    MatchStock(j.on, p, i, d, inventory.rows, sv);
    var found := Matching(j.on, i, map[p := d], inventory.rows, sv);
    if found == [] && j.kind.LeftJoin? {
      var bare: Env := map[p := d][i := NullRow(inventory.columns)];
      assert [bare][1..] == [];
      assert bare[i]["QUANTITY"].Null?;
    }
  }

  /** The products seen so far carry their stock; no other product appears. */
  predicate CarriesSome(rows: seq<Env>, p: string, i: string, products: seq<Row>, inventory: seq<Row>, id: int) {
    && (forall env <- rows :: p in env && env[p] in products)
    && (if Offered(products, id) then Stocking(OfKey(rows, p, Some(id)), i, inventory, id)
        else OfKey(rows, p, Some(id)) == [])
  }

  lemma {:induction false} CarriesMore(mine: seq<Env>, rest: seq<Env>, p: string, i: string, products: seq<Row>,
                                       inventory: seq<Row>, id: int)
    requires products != [] && KeyedById(products) && ProductRow(products[0])
    requires (forall env <- mine :: p in env && env[p] == products[0]) && Stocking(mine, i, inventory, Id(products[0]))
    requires CarriesSome(rest, p, i, products[1..], inventory, id)
    ensures CarriesSome(mine + rest, p, i, products, inventory, id)
  {
    OfKeyThen(mine, rest, p, Id(products[0]), id);
    assert mine + [] == mine;
    assert products[0] in products;
    assert forall r <- products[1..] :: r in products;
  }

  lemma {:induction false} ProductsJoined(j: Join, p: string, i: string, products: seq<Row>, inventory: TableData, sv: Server, id: int)
    requires PlainJoin(j.on, p, i) && j.table.alias.Key() == i && p != i
    requires (forall d <- products :: ProductRow(d)) && KeyedById(products) && InventoryTable(inventory)
    ensures CarriesSome(JoinOne(j, Start(p, products), inventory, sv), p, i, products, inventory.rows, id)
  {
    if products != [] {
      assert products[0] in products;
      assert forall r <- products[1..] :: r in products;
      KeyedTail(products);
      ProductExtended(j, p, i, products[0], inventory, sv);
      ProductsJoined(j, p, i, products[1..], inventory, sv, id);
      CarriesMore(Extend(j, map[p := products[0]], inventory, sv), JoinOne(j, Start(p, products[1..]), inventory, sv),
                  p, i, products, inventory.rows, id);
    }
  }

  lemma {:induction false} OfKeyThen(mine: seq<Env>, rest: seq<Env>, p: string, mineId: int, id: int)
    requires forall env <- mine :: KeyId(env, p) == Some(mineId)
    ensures OfKey(mine + rest, p, Some(id))
         == if mineId == id then mine + OfKey(rest, p, Some(id)) else OfKey(rest, p, Some(id))
  {
    OfKeyConcat(mine, rest, p, Some(id));
    OfKeyAll(mine, p, Some(mineId), Some(id));
  }

  // ------------------------------------------------ starting from the inventory

  lemma {:induction false} MatchProduct(on: Cond, p: string, i: string, r: Row, products: seq<Row>, sv: Server, id: int)
    requires PlainJoin(on, p, i) && p != i && InventoryRow(r)
    requires (forall d <- products :: ProductRow(d)) && KeyedById(products)
    ensures
      var found := Matching(on, p, map[i := r], products, sv);
      && (forall env <- found :: p in env && i in env && env[p] in products && env[i] == r && KeyId(env, p) == Some(Id(r)))
      && |found| == (if Offered(products, Id(r)) then 1 else 0)
  {
    if products != [] {
      var d := products[0];
      assert d in products;
      assert forall x <- products[1..] :: x in products;
      var env: Env := map[i := r][p := d];
      KeyedTail(products);
      PlainJudged(on, p, i, env, sv);
      MatchProduct(on, p, i, r, products[1..], sv, id);
    }
  }

  /** A stock row next to its product, or next to nulls. */
  lemma {:induction false} StockExtended(j: Join, p: string, i: string, r: Row, products: TableData, sv: Server, id: int)
    requires PlainJoin(j.on, p, i) && j.table.alias.Key() == p && p != i
    requires InventoryRow(r) && ProductTable(products) && Offered(products.rows, id)
    ensures
      var rows := Extend(j, map[i := r], products, sv);
      && (forall env <- rows :: FromProduct(env, p, products))
      && Stock(OfKey(rows, p, Some(id)), i) == (if Id(r) == id then [Int(IntAt(r, "QUANTITY"))] else [])
      && Linked(OfKey(rows, p, Some(id)), i, id)
  {
    MatchProduct(j.on, p, i, r, products.rows, sv, id);
    var rows := Extend(j, map[i := r], products, sv);
    if |rows| == 1 {
      assert rows[0] in rows;
      assert rows == [rows[0]] && rows[1..] == [];
    }
  }

  lemma {:induction false} StockJoined(j: Join, p: string, i: string, inventory: seq<Row>, products: TableData, sv: Server, id: int)
    requires PlainJoin(j.on, p, i) && j.table.alias.Key() == p && p != i
    requires (forall r <- inventory :: InventoryRow(r)) && ProductTable(products) && Offered(products.rows, id)
    ensures
      var rows := JoinOne(j, Start(i, inventory), products, sv);
      && (forall env <- rows :: FromProduct(env, p, products))
      && Stock(OfKey(rows, p, Some(id)), i) == Stocks(inventory, id)
      && Linked(OfKey(rows, p, Some(id)), i, id)
  {
    if inventory != [] {
      var r := inventory[0];
      var mine := Extend(j, map[i := r], products, sv);
      var rest := JoinOne(j, Start(i, inventory[1..]), products, sv);
      assert r in inventory;
      assert forall x <- inventory[1..] :: x in inventory;
      StockExtended(j, p, i, r, products, sv, id);
      StockJoined(j, p, i, inventory[1..], products, sv, id);
      OfKeyConcat(mine, rest, p, Some(id));
      StockConcat(OfKey(mine, p, Some(id)), OfKey(rest, p, Some(id)), i);
    }
  }

  lemma {:induction false} StockShape(j: Join, p: string, i: string, inventory: seq<Row>, products: TableData, sv: Server)
    requires PlainJoin(j.on, p, i) && j.table.alias.Key() == p && p != i
    requires (forall r <- inventory :: InventoryRow(r)) && ProductTable(products)
    ensures forall env <- JoinOne(j, Start(i, inventory), products, sv) :: FromProduct(env, p, products)
  {
    if inventory != [] {
      assert inventory[0] in inventory;
      assert forall x <- inventory[1..] :: x in inventory;
      MatchProduct(j.on, p, i, inventory[0], products.rows, sv, 0);
      StockShape(j, p, i, inventory[1..], products, sv);
    }
  }

  // ---------------------------------------------------------- either way round

  /** Join kind and join order do not matter: INNER, bare and LEFT joins from either table
      carry the same stock per product. */
  lemma {:induction false} AnyJoinCarries(j: Join, p: string, i: string, products: TableData, inventory: TableData, sv: Server)
    requires PlainJoin(j.on, p, i) && p != i
    requires ProductTable(products) && InventoryTable(inventory)
    ensures j.table.alias.Key() == i ==>
      Carries(JoinOne(j, Start(p, products.rows), inventory, sv), p, i, products, inventory)
    ensures j.table.alias.Key() == p ==>
      Carries(JoinOne(j, Start(i, inventory.rows), products, sv), p, i, products, inventory)
  {
    if j.table.alias.Key() == i {
      FromProducts(j, p, i, products, inventory, sv);
    } else if j.table.alias.Key() == p {
      FromInventory(j, p, i, products, inventory, sv);
    }
  }

  lemma {:induction false} FromProducts(j: Join, p: string, i: string, products: TableData, inventory: TableData, sv: Server)
    requires PlainJoin(j.on, p, i) && p != i && j.table.alias.Key() == i
    requires ProductTable(products) && InventoryTable(inventory)
    ensures Carries(JoinOne(j, Start(p, products.rows), inventory, sv), p, i, products, inventory)
  {
    ProductsJoined(j, p, i, products.rows, inventory, sv, 0);
    forall id | Offered(products.rows, id)
      ensures Stocking(OfKey(JoinOne(j, Start(p, products.rows), inventory, sv), p, Some(id)), i, inventory.rows, id)
    {
      ProductsJoined(j, p, i, products.rows, inventory, sv, id);
    }
  }

  lemma {:induction false} FromInventory(j: Join, p: string, i: string, products: TableData, inventory: TableData, sv: Server)
    requires PlainJoin(j.on, p, i) && p != i && j.table.alias.Key() == p
    requires ProductTable(products) && InventoryTable(inventory)
    ensures Carries(JoinOne(j, Start(i, inventory.rows), products, sv), p, i, products, inventory)
  {
    StockShape(j, p, i, inventory.rows, products, sv);
    forall id | Offered(products.rows, id)
      ensures Stocking(OfKey(JoinOne(j, Start(i, inventory.rows), products, sv), p, Some(id)), i, inventory.rows, id)
    {
      StockJoined(j, p, i, inventory.rows, products, sv, id);
    }
  }
}
