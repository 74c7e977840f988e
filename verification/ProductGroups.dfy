/** Grouping by the three approved keys is grouping by ProductID, and the approved HAVING
    keeps the groups of the short products. */
module ProductGroups {
  import opened Text
  import opened SqlAst
  import opened Sql
  import opened Decoding
  import opened ListClauses
  import opened Business
  import opened Joining

  /** The keys tell rows apart exactly by ProductID. */
  ghost predicate Splits(keys: seq<Expr>, p: string, rows: seq<Env>, sv: Server) {
    forall a, b :: a in rows && b in rows ==> (SameKeys(keys, a, b, sv) <==> KeyId(a, p) == KeyId(b, p))
  }

  /** All three columns of Product are among the keys. */
  lemma {:induction false} KeyFor(keys: seq<Expr>, p: string, c: string) returns (k: Expr)
    requires GroupKeys(keys, p) && c in {"PRODUCTID", "NAME", "SAFETYSTOCKLEVEL"}
    ensures k in keys && ColumnIs(k, p, c)
  {
    assert keys[0] in keys && keys[1] in keys && keys[2] in keys;
    k := if ColumnOf(keys[0]) == c then keys[0] else if ColumnOf(keys[1]) == c then keys[1] else keys[2];
  }

  lemma {:induction false} KeysSplit(keys: seq<Expr>, p: string, a: Env, b: Env, products: TableData, sv: Server)
    requires GroupKeys(keys, p) && ProductTable(products)
    requires FromProduct(a, p, products) && FromProduct(b, p, products)
    ensures SameKeys(keys, a, b, sv) <==> KeyId(a, p) == KeyId(b, p)
  {
    if KeyId(a, p) == KeyId(b, p) {
      forall k | k in keys ensures Same(Eval(k, [a], sv), Eval(k, [b], sv), sv) {
      }
    } else {
      var k := KeyFor(keys, p, "PRODUCTID");
      assert "PRODUCTID" in a[p] && "PRODUCTID" in b[p];
    }
  }

  lemma {:induction false} RowsSplit(keys: seq<Expr>, p: string, rows: seq<Env>, products: TableData, sv: Server)
    requires GroupKeys(keys, p) && ProductTable(products)
    requires forall env <- rows :: FromProduct(env, p, products)
    ensures Splits(keys, p, rows, sv)
  {
    forall a, b | a in rows && b in rows ensures SameKeys(keys, a, b, sv) <==> KeyId(a, p) == KeyId(b, p) {
      KeysSplit(keys, p, a, b, products, sv);
    }
  }

  // --------------------------------------------------------------- grouping

  function NotKey(rows: seq<Env>, p: string, key: Option<int>): seq<Env> {
    if rows == [] then [] else (if KeyId(rows[0], p) == key then [] else [rows[0]]) + NotKey(rows[1..], p, key)
  }

  function GroupId(g: seq<Env>, p: string): Option<int> { if g == [] then None else KeyId(g[0], p) }

  predicate DistinctIds(gs: seq<seq<Env>>, p: string) {
    forall a, b :: 0 <= a < b < |gs| ==> GroupId(gs[a], p) != GroupId(gs[b], p)
  }

  /** The groups are the classes of rows with equal ProductID, each once. */
  ghost predicate Classes(gs: seq<seq<Env>>, rows: seq<Env>, p: string) {
    && (forall g <- gs :: g != [] && g == OfKey(rows, p, GroupId(g, p)))
    && (forall env <- rows :: OfKey(rows, p, KeyId(env, p)) in gs)
    && DistinctIds(gs, p)
  }

  lemma {:induction false} LikeByKey(keys: seq<Expr>, p: string, first: Env, rows: seq<Env>, sv: Server)
    requires Splits(keys, p, [first] + rows, sv)
    ensures Like(keys, first, rows, true, sv) == OfKey(rows, p, KeyId(first, p))
    ensures Like(keys, first, rows, false, sv) == NotKey(rows, p, KeyId(first, p))
  {
    if rows != [] {
      LikeByKey(keys, p, first, rows[1..], sv);
    }
  }

  lemma {:induction false} NotKeyMembers(rows: seq<Env>, p: string, key: Option<int>)
    ensures forall env :: env in NotKey(rows, p, key) <==> env in rows && KeyId(env, p) != key
  {
    if rows != [] {
      NotKeyMembers(rows[1..], p, key);
      assert rows == [rows[0]] + rows[1..];
    }
  }

  lemma {:induction false} NotKeyKeeps(rows: seq<Env>, p: string, key: Option<int>, other: Option<int>)
    requires key != other
    ensures OfKey(NotKey(rows, p, key), p, other) == OfKey(rows, p, other)
  {
    if rows != [] {
      NotKeyKeeps(rows[1..], p, key, other);
      var rest := NotKey(rows[1..], p, key);
      if KeyId(rows[0], p) == key {
        assert [] + rest == rest;
        assert [] + OfKey(rows[1..], p, other) == OfKey(rows[1..], p, other);
      } else {
        assert ([rows[0]] + rest)[1..] == rest;
      }
    }
  }

  /** Putting the class of the first row in front of the classes of the others. */
  lemma {:induction false} ClassesStep(first: Env, rest: seq<Env>, p: string, gs: seq<seq<Env>>)
    requires Classes(gs, NotKey(rest, p, KeyId(first, p)), p)
    ensures Classes([[first] + OfKey(rest, p, KeyId(first, p))] + gs, [first] + rest, p)
  {
    var key, rows := KeyId(first, p), [first] + rest;
    var others := NotKey(rest, p, key);
    var g0 := [first] + OfKey(rest, p, key);
    assert rows[1..] == rest;
    assert OfKey(rows, p, key) == g0;
    forall o: Option<int> | o != key ensures OfKey(others, p, o) == OfKey(rows, p, o) {
      NotKeyKeeps(rest, p, key, o);
      assert [] + OfKey(rest, p, o) == OfKey(rest, p, o);
    }
    ClassesOthers(others, gs, p, key, rest);
    forall env | env in rows ensures OfKey(rows, p, KeyId(env, p)) in [g0] + gs {
      if KeyId(env, p) != key {
        NotKeyMembers(rest, p, key);
        assert env in others;
      }
    }
    forall g | g in [g0] + gs ensures g != [] && g == OfKey(rows, p, GroupId(g, p)) {
      if g != g0 { assert g in gs; }
    }
  }

  lemma {:induction false} ClassesOthers(others: seq<Env>, gs: seq<seq<Env>>, p: string, key: Option<int>, rest: seq<Env>)
    requires others == NotKey(rest, p, key) && Classes(gs, others, p)
    ensures forall g <- gs :: GroupId(g, p) != key
  {
    forall g | g in gs ensures GroupId(g, p) != key {
      OfKeyMembers(others, p, GroupId(g, p));
      NotKeyMembers(rest, p, key);
      assert g[0] in g;
    }
  }

  lemma {:induction false} GroupsAreClasses(keys: seq<Expr>, p: string, rows: seq<Env>, sv: Server)
    requires Splits(keys, p, rows, sv)
    ensures Classes(Groups(keys, rows, sv), rows, p)
    decreases |rows|
  {
    if rows != [] {
      var first, rest := rows[0], rows[1..];
      assert rows == [first] + rest;
      LikeByKey(keys, p, first, rest, sv);
      var others := NotKey(rest, p, KeyId(first, p));
      NotKeyMembers(rest, p, KeyId(first, p));
      assert forall env <- others :: env in rows;
      GroupsAreClasses(keys, p, others, sv);
      ClassesStep(first, rest, p, Groups(keys, others, sv));
    }
  }

  // ----------------------------------------------------------------- HAVING

  lemma {:induction false} PresentIsStock(arg: Expr, i: string, group: seq<Env>, sv: Server)
    requires ColumnIs(arg, i, "QUANTITY")
    ensures Present(arg, group, sv) == Stock(group, i)
  {
    if group != [] { PresentIsStock(arg, i, group[1..], sv); }
  }

  /** The sum over a product's group is its stock on hand, and null when there is none. */
  lemma {:induction false} GroupSum(e: Expr, i: string, group: seq<Env>, inventory: seq<Row>, id: int, sv: Server)
    requires SumOf(e, i, "QUANTITY") && Stock(group, i) == Stocks(inventory, id)
    ensures Eval(e, group, sv) == if Stocked(inventory, id) then Int(OnHand(inventory, id)) else Null
  {
    PresentIsStock(e.arg, i, group, sv);
    StocksMeans(inventory, id);
  }

  lemma {:induction false} GroupColumn(e: Expr, p: string, c: string, group: seq<Env>, sv: Server)
    requires ColumnIs(e, p, c) && group != [] && p in group[0] && c in group[0][p]
    ensures Eval(e, group, sv) == group[0][p][c]
  {
  }

  /** The row of Product a group stands for. */
  function RowOf(g: seq<Env>, p: string): Row { if g != [] && p in g[0] then g[0][p] else map[] }

  lemma {:induction false} ClassRow(rows: seq<Env>, p: string, i: string, products: TableData, inventory: TableData,
                                    key: Option<int>, g: seq<Env>)
    requires Carries(rows, p, i, products, inventory) && ProductTable(products)
    requires g == OfKey(rows, p, key) && g != []
    ensures p in g[0] && RowOf(g, p) == g[0][p]
    ensures key.Some? ==> RowOf(g, p) in products.rows && Id(RowOf(g, p)) == key.value
    ensures key.None? ==> "SAFETYSTOCKLEVEL" in g[0][p] && g[0][p]["SAFETYSTOCKLEVEL"].Null?
  {
    OfKeyMembers(rows, p, key);
    assert g[0] in g;
    assert FromProduct(g[0], p, products);
  }

  /** HAVING keeps a group exactly when it is the group of a short product. */
  lemma {:induction false} HavingJudged(c: Cond, rows: seq<Env>, p: string, i: string, products: TableData,
                                        inventory: TableData, key: Option<int>, g: seq<Env>, sv: Server)
    requires BelowSafetyStock(c, p, i)
    requires Carries(rows, p, i, products, inventory) && ProductTable(products)
    requires g == OfKey(rows, p, key) && g != []
    ensures Judge(c, g, sv).True? <==> key.Some? && Short(RowOf(g, p), inventory.rows)
  {
    ClassRow(rows, p, i, products, inventory, key, g);
    GroupColumn(c.rhs, p, "SAFETYSTOCKLEVEL", g, sv);
    if key.Some? {
      assert Offered(products.rows, key.value);
      GroupSum(c.lhs, i, g, inventory.rows, key.value, sv);
    }
  }

  /** The groups kept: one for each short product. */
  ghost predicate ShortGroups(gs: seq<seq<Env>>, rows: seq<Env>, p: string, products: TableData, inventory: TableData) {
    && (forall g <- gs ::
          && g != [] && p in g[0] && RowOf(g, p) in products.rows && Short(RowOf(g, p), inventory.rows)
          && g == OfKey(rows, p, Some(Id(RowOf(g, p)))))
    && (forall d <- products.rows :: Short(d, inventory.rows) ==> OfKey(rows, p, Some(Id(d))) in gs)
    && DistinctIds(gs, p)
  }

  lemma {:induction false} HavingMembers(c: Cond, gs: seq<seq<Env>>, p: string, sv: Server)
    ensures forall g :: g in Having(c, gs, sv) <==> g in gs && Judge(c, g, sv).True?
    ensures DistinctIds(gs, p) ==> DistinctIds(Having(c, gs, sv), p)
  {
    if gs != [] {
      HavingMembers(c, gs[1..], p, sv);
      assert gs == [gs[0]] + gs[1..];
      if DistinctIds(gs, p) { DistinctKept(c, gs, p, sv); }
    }
  }

  lemma {:induction false} DistinctCons(g: seq<Env>, rest: seq<seq<Env>>, p: string)
    requires DistinctIds(rest, p) && forall h <- rest :: GroupId(g, p) != GroupId(h, p)
    ensures DistinctIds([g] + rest, p)
  {
    assert forall k :: 0 <= k < |rest| ==> rest[k] in rest;
  }

  lemma {:induction false} DistinctKept(c: Cond, gs: seq<seq<Env>>, p: string, sv: Server)
    requires gs != [] && DistinctIds(gs, p) && DistinctIds(Having(c, gs[1..], sv), p)
    requires forall g :: g in Having(c, gs[1..], sv) <==> g in gs[1..] && Judge(c, g, sv).True?
    ensures DistinctIds(Having(c, gs, sv), p)
  {
    var rest := Having(c, gs[1..], sv);
    assert forall g <- rest :: GroupId(gs[0], p) != GroupId(g, p);
    DistinctCons(gs[0], rest, p);
    assert [] + rest == rest;
  }

  lemma {:induction false} ShortKept(c: Cond, gs: seq<seq<Env>>, rows: seq<Env>, p: string, i: string,
                                     products: TableData, inventory: TableData, sv: Server)
    requires BelowSafetyStock(c, p, i)
    requires Carries(rows, p, i, products, inventory) && ProductTable(products)
    requires Classes(gs, rows, p)
    ensures ShortGroups(Having(c, gs, sv), rows, p, products, inventory)
  {
    var kept := Having(c, gs, sv);
    HavingMembers(c, gs, p, sv);
    forall g | g in kept
      ensures g != [] && p in g[0] && RowOf(g, p) in products.rows && Short(RowOf(g, p), inventory.rows)
      ensures g == OfKey(rows, p, Some(Id(RowOf(g, p))))
    {
      HavingJudged(c, rows, p, i, products, inventory, GroupId(g, p), g, sv);
      ClassRow(rows, p, i, products, inventory, GroupId(g, p), g);
    }
    forall d | d in products.rows && Short(d, inventory.rows) ensures OfKey(rows, p, Some(Id(d))) in kept {
      ShortHasGroup(c, gs, rows, p, i, products, inventory, d, sv);
    }
  }

  lemma {:induction false} ShortHasRows(rows: seq<Env>, p: string, i: string, products: TableData,
                                        inventory: TableData, d: Row)
    requires Carries(rows, p, i, products, inventory)
    requires d in products.rows && Short(d, inventory.rows)
    ensures OfKey(rows, p, Some(Id(d))) != []
  {
    assert Offered(products.rows, Id(d));
    StocksMeans(inventory.rows, Id(d));
  }

  lemma {:induction false} ShortHasGroup(c: Cond, gs: seq<seq<Env>>, rows: seq<Env>, p: string, i: string,
                                         products: TableData, inventory: TableData, d: Row, sv: Server)
    requires BelowSafetyStock(c, p, i)
    requires Carries(rows, p, i, products, inventory) && ProductTable(products)
    requires Classes(gs, rows, p)
    requires d in products.rows && Short(d, inventory.rows)
    ensures OfKey(rows, p, Some(Id(d))) in gs
    ensures Judge(c, OfKey(rows, p, Some(Id(d))), sv).True?
  {
    var key := Some(Id(d));
    var g := OfKey(rows, p, key);
    ShortHasRows(rows, p, i, products, inventory, d);
    OfKeyMembers(rows, p, key);
    assert g[0] in g;
    ClassRow(rows, p, i, products, inventory, key, g);
    HavingJudged(c, rows, p, i, products, inventory, key, g, sv);
  }
}
