/** Which ORDER BY keys the server accepts next to the approved clauses, read off the keys,
    the items, the two aliases and the columns of the two tables. */
module Sorting {
  import opened Text
  import opened SqlAst
  import opened Sql
  import opened Clauses
  import opened ListClauses
  import opened Acceptance
  import opened Business
  import opened ProductGroups
  import opened Meaning
  import V = Vocabulary
  import G = Guardrail

  /** The columns of Product and of ProductInventory. */
  datatype Columns = Columns(product: map<string, Kind>, inventory: map<string, Kind>)

  const REQUIRED := Columns(PRODUCT_COLUMNS, INVENTORY_COLUMNS)

  /** The reference names a column of exactly one table. */
  predicate OneColumn(e: Expr, p: string, i: string, cs: Columns)
    requires e.Column?
  {
    var c := e.column.Key();
    if e.table.None? then (c in cs.product) != (c in cs.inventory)
    else (e.table.value.Key() == p && c in cs.product) || (e.table.value.Key() == i && c in cs.inventory)
  }

  /** The reference names one of the three group columns. */
  predicate GroupColumnOf(e: Expr, p: string, cs: Columns)
    requires e.Column?
  {
    && e.column.Key() in G.GROUP_BY_COLUMNS
    && if e.table.None? then e.column.Key() !in cs.inventory else e.table.value.Key() == p
  }

  /** What an aggregate may be taken of: no aggregate, every reference unambiguous. */
  predicate Rowwise(e: Expr, p: string, i: string, cs: Columns) {
    match e
    case Column(_, _) => OneColumn(e, p, i, cs)
    case Number(_) => true
    case Call(_, _) => false
    case Arith(_, l, r) => Rowwise(l, p, i, cs) && Rowwise(r, p, i, cs)
  }

  /** What has one value per group: group columns, numbers and aggregates. */
  predicate Groupwise(e: Expr, p: string, i: string, cs: Columns) {
    match e
    case Column(_, _) => GroupColumnOf(e, p, cs)
    case Number(_) => true
    case Call(_, arg) => Rowwise(arg, p, i, cs)
    case Arith(_, l, r) => Groupwise(l, p, i, cs) && Groupwise(r, p, i, cs)
  }

  function ColumnKind(e: Expr, p: string, i: string, cs: Columns): Option<Kind>
    requires e.Column?
  {
    var c := e.column.Key();
    if !OneColumn(e, p, i, cs) then None
    else if c in cs.product && (e.table.None? || e.table.value.Key() == p) then Some(cs.product[c])
    else Some(cs.inventory[c])
  }

  /** What the expression yields, if every operation in it takes its operands. */
  function Yields(e: Expr, p: string, i: string, cs: Columns): Option<Kind> {
    match e
    case Column(_, _) => ColumnKind(e, p, i, cs)
    case Number(_) => Some(Numbers)
    case Call(fn, arg) => CallKind(fn, Yields(arg, p, i, cs))
    case Arith(op, l, r) => ArithKind(op, Yields(l, p, i, cs), Yields(r, p, i, cs))
  }

  /** An output name, the position of an item, or something computed once per group. */
  predicate SortKey(e: Expr, p: string, i: string, cs: Columns) {
    || (e.Column? && e.table.None? && e.column.Key() in OUTPUT_KEYS)
    || (e.Number? && 1 <= e.n <= |OUTPUT_KEYS|)
    || (!Constant(e) && Groupwise(e, p, i, cs) && Yields(e, p, i, cs).Some?)
  }

  /** The output a key sorts by, unless it computes something of its own. */
  function SortsBy(e: Expr, items: seq<Item>): Option<string> {
    if e.Column? then Some(e.column.Key())
    else if e.Number? && 1 <= e.n <= |items| then Some(OutputOf(items[e.n - 1]))
    else None
  }

  /** No output is sorted by twice. */
  predicate NoneTwice(ks: seq<OrderKey>, items: seq<Item>) {
    forall a, b :: 0 <= a < b < |ks| ==>
      SortsBy(ks[a].expr, items).None? || SortsBy(ks[a].expr, items) != SortsBy(ks[b].expr, items)
  }

  predicate SortKeys(q: Query, cs: Columns)
    requires TwoTables(q)
  {
    && (forall k <- q.orderBy :: SortKey(k.expr, ProductAlias(q), InventoryAlias(q), cs))
    && NoneTwice(q.orderBy, q.items)
  }

  /** The keys sort where the two tables have the required columns alone. */
  predicate Sortable(q: Query)
    requires TwoTables(q)
  {
    SortKeys(q, REQUIRED)
  }

  ghost predicate KeysSound(q: Query, scope: Scope) {
    (forall k <- q.orderBy :: KeySound(k, q, scope)) && KeysDistinct(q, scope)
  }

  // ------------------------------------------------- against the server's rules

  predicate Complete(cs: Columns) { Has(cs.product, PRODUCT_COLUMNS) && Has(cs.inventory, INVENTORY_COLUMNS) }

  function ScopeFor(p: string, i: string, cs: Columns): Scope { map[p := cs.product, i := cs.inventory] }

  lemma {:induction false} Resolves(e: Expr, p: string, i: string, cs: Columns)
    requires e.Column? && p != i
    ensures Resolve(e, ScopeFor(p, i, cs)).Some? <==> OneColumn(e, p, i, cs)
  {
    var scope, c := ScopeFor(p, i, cs), e.column.Key();
    assert scope[p] == cs.product && scope[i] == cs.inventory;
    if e.table.None? && (c in cs.product || c in cs.inventory) {
      assert exists t :: t in scope && c in scope[t] by {
        var t := if c in cs.product then p else i;
        assert t in scope && c in scope[t];
      }
    }
  }

  /** A resolved reference names the column `c` of the table `t`. */
  lemma {:induction false} ResolvedTo(e: Expr, p: string, i: string, cs: Columns)
    requires e.Column? && p != i && OneColumn(e, p, i, cs)
    ensures Resolve(e, ScopeFor(p, i, cs)).Some?
    ensures Resolve(e, ScopeFor(p, i, cs)).value.1 == e.column.Key()
    ensures Resolve(e, ScopeFor(p, i, cs)).value.0 == p
       <==> if e.table.None? then e.column.Key() !in cs.inventory else e.table.value.Key() == p
  {
    Resolves(e, p, i, cs);
    var scope := ScopeFor(p, i, cs);
    assert scope[p] == cs.product && scope[i] == cs.inventory;
  }

  lemma {:induction false} ColumnPerGroup(e: Expr, keys: seq<Expr>, p: string, i: string, cs: Columns)
    requires e.Column? && p != i && GroupKeys(keys, p) && Complete(cs)
    ensures PerGroup(e, keys, ScopeFor(p, i, cs)) <==> GroupColumnOf(e, p, cs)
  {
    var scope := ScopeFor(p, i, cs);
    Resolves(e, p, i, cs);
    if OneColumn(e, p, i, cs) {
      ResolvedTo(e, p, i, cs);
      forall k | k in keys ensures OneColumn(k, p, i, cs) && Resolve(k, scope) == Some((p, k.column.Key())) {
        assert GroupKey(k, p);
        ResolvedTo(k, p, i, cs);
      }
      if GroupColumnOf(e, p, cs) { var k := KeyFor(keys, p, e.column.Key()); }
    }
  }

  lemma {:induction false} RowwiseMeans(e: Expr, p: string, i: string, cs: Columns)
    requires p != i
    ensures Scalar(e, ScopeFor(p, i, cs)) <==> Rowwise(e, p, i, cs)
  {
    match e
    case Column(_, _) => Resolves(e, p, i, cs);
    case Number(_) =>
    case Call(_, _) =>
    case Arith(_, l, r) => RowwiseMeans(l, p, i, cs); RowwiseMeans(r, p, i, cs);
  }

  lemma {:induction false} GroupwiseMeans(e: Expr, keys: seq<Expr>, p: string, i: string, cs: Columns)
    requires p != i && GroupKeys(keys, p) && Complete(cs)
    ensures PerGroup(e, keys, ScopeFor(p, i, cs)) <==> Groupwise(e, p, i, cs)
  {
    match e
    case Column(_, _) => ColumnPerGroup(e, keys, p, i, cs);
    case Number(_) =>
    case Call(_, arg) => RowwiseMeans(arg, p, i, cs);
    case Arith(_, l, r) => GroupwiseMeans(l, keys, p, i, cs); GroupwiseMeans(r, keys, p, i, cs);
  }

  lemma {:induction false} YieldsMeans(e: Expr, p: string, i: string, cs: Columns)
    requires p != i
    ensures KindOf(e, ScopeFor(p, i, cs)) == Yields(e, p, i, cs)
  {
    match e
    case Column(_, _) =>
      Resolves(e, p, i, cs);
      if OneColumn(e, p, i, cs) { ResolvedTo(e, p, i, cs); }
    case Number(_) =>
    case Call(_, arg) => YieldsMeans(arg, p, i, cs);
    case Arith(_, l, r) => YieldsMeans(l, p, i, cs); YieldsMeans(r, p, i, cs);
  }

  /** The names ORDER BY finds among the items are the four outputs. */
  lemma {:induction false} OutputNamed(items: seq<Item>, e: Expr)
    requires forall x <- items :: x.alias.Some?
    ensures ItemNamed(e, items).Some? <==> e.Column? && e.table.None? && e.column.Key() in OutputNames(items)
  {
    if items != [] {
      assert items[0] in items && items == [items[0]] + items[1..];
      assert forall x <- items[1..] :: x in items;
      assert OutputNames(items) == {items[0].alias.value.Key()} + OutputNames(items[1..]);
      OutputNamed(items[1..], e);
    }
  }

  /** What a key stands for among approved items. */
  lemma {:induction false} ItemMeant(items: seq<Item>, p: string, i: string, e: Expr)
    requires BoundItems(items, p, i)
    ensures KeyItem(e, items).Some?
       <==> (e.Column? && e.table.None? && e.column.Key() in OUTPUT_KEYS) || (e.Number? && 1 <= e.n <= |OUTPUT_KEYS|)
    ensures KeyItem(e, items).Some? ==> SortsBy(e, items) == Some(OutputOf(items[KeyItem(e, items).value]))
  {
    FourKeys();
    if !e.Number? { NameMeant(items, p, i, e); }
  }

  lemma {:induction false} NameMeant(items: seq<Item>, p: string, i: string, e: Expr)
    requires BoundItems(items, p, i)
    ensures ItemNamed(e, items).Some? <==> e.Column? && e.table.None? && e.column.Key() in OUTPUT_KEYS
    ensures ItemNamed(e, items).Some? ==> e.column.Key() == OutputOf(items[ItemNamed(e, items).value])
  {
    AllOutputs(items, p, i);
    forall x | x in items ensures x.alias.Some? { assert Bound(x, p, i); }
    OutputNamed(items, e);
    if ItemNamed(e, items).Some? { assert items[ItemNamed(e, items).value] in items; }
  }

  lemma {:induction false} KeyMeans(q: Query, e: Expr, cs: Columns)
    requires Family(q) && Complete(cs)
    ensures
      var p, i := ProductAlias(q), InventoryAlias(q);
      KeyItem(e, q.items).Some? || (!Constant(e) && OutputSound(e, q, ScopeFor(p, i, cs))) <==> SortKey(e, p, i, cs)
  {
    var p, i := ProductAlias(q), InventoryAlias(q);
    ItemMeant(q.items, p, i, e);
    GroupwiseMeans(e, q.groupBy, p, i, cs);
    YieldsMeans(e, p, i, cs);
  }

  /** The target of a key that sorts, told by its output. */
  predicate TargetFits(t: Target, items: seq<Item>, p: string, sorted: Option<string>) {
    match t
    case Computed => sorted == None
    case OfColumn(table, c) => table == p && sorted == Some(c) && c in G.GROUP_BY_COLUMNS
    case OfItem(n) => n < |items| && OutputOf(items[n]) == "CURRENTINVENTORY" && sorted == Some("CURRENTINVENTORY")
  }

  lemma {:induction false} TargetMeans(items: seq<Item>, p: string, i: string, e: Expr, cs: Columns)
    requires BoundItems(items, p, i) && p != i && Complete(cs) && SortKey(e, p, i, cs)
    ensures TargetFits(TargetOf(e, items, ScopeFor(p, i, cs)), items, p, SortsBy(e, items))
  {
    var x := KeyReads(e, items);
    ItemMeant(items, p, i, e);
    if KeyItem(e, items).Some? {
      var y := items[KeyItem(e, items).value];
      assert y in items && Bound(y, p, i);
    }
    if x.Column? { Resolves(x, p, i, cs); ResolvedTo(x, p, i, cs); }
  }

  /** Two keys have one target exactly when they sort by one output. */
  lemma {:induction false} SameTarget(items: seq<Item>, p: string, s: Target, t: Target, sorted: Option<string>, other: Option<string>)
    requires forall a, b :: 0 <= a < b < |items| ==> OutputOf(items[a]) != OutputOf(items[b])
    requires TargetFits(s, items, p, sorted) && TargetFits(t, items, p, other)
    ensures s.Computed? || s != t <==> sorted.None? || sorted != other
  {
  }

  lemma {:induction false} TwiceMeans(q: Query, cs: Columns)
    requires Family(q) && Complete(cs)
    requires forall k <- q.orderBy :: SortKey(k.expr, ProductAlias(q), InventoryAlias(q), cs)
    ensures KeysDistinct(q, ScopeFor(ProductAlias(q), InventoryAlias(q), cs)) <==> NoneTwice(q.orderBy, q.items)
  {
    var p, i, ks := ProductAlias(q), InventoryAlias(q), q.orderBy;
    var scope := ScopeFor(p, i, cs);
    forall a, b | 0 <= a < b < |ks|
      ensures TargetOf(ks[a].expr, q.items, scope).Computed? || TargetOf(ks[a].expr, q.items, scope) != TargetOf(ks[b].expr, q.items, scope)
        <==> SortsBy(ks[a].expr, q.items).None? || SortsBy(ks[a].expr, q.items) != SortsBy(ks[b].expr, q.items)
    {
      assert ks[a] in ks && ks[b] in ks;
      TargetMeans(q.items, p, i, ks[a].expr, cs);
      TargetMeans(q.items, p, i, ks[b].expr, cs);
      SameTarget(q.items, p, TargetOf(ks[a].expr, q.items, scope), TargetOf(ks[b].expr, q.items, scope),
                 SortsBy(ks[a].expr, q.items), SortsBy(ks[b].expr, q.items));
    }
  }

  /** The server accepts the sort keys of an approved statement exactly when each of them is
      an output, by name or position, or is computed once per group from operands of the right
      kinds, and no output is sorted by twice. */
  lemma {:induction false} KeysMean(q: Query, cs: Columns)
    requires Family(q) && Complete(cs)
    ensures KeysSound(q, ScopeFor(ProductAlias(q), InventoryAlias(q), cs)) <==> SortKeys(q, cs)
  {
    var p, i := ProductAlias(q), InventoryAlias(q);
    forall k | k in q.orderBy ensures KeySound(k, q, ScopeFor(p, i, cs)) <==> SortKey(k.expr, p, i, cs) {
      KeyMeans(q, k.expr, cs);
    }
    if forall k <- q.orderBy :: SortKey(k.expr, p, i, cs) { TwiceMeans(q, cs); }
  }

  /** A first key qualified by Product's alias sorts, whatever else the tables hold, and one
      qualified otherwise never does. */
  lemma {:induction false} FirstKeySorts(q: Query, cs: Columns)
    requires Family(q) && Complete(cs)
    ensures SortKey(q.orderBy[0].expr, ProductAlias(q), InventoryAlias(q), cs)
       <==> q.orderBy[0].expr.table.None? || q.orderBy[0].expr.table.value.Key() == ProductAlias(q)
  {
  }

  // ------------------------------------------------------------ further columns

  /** Beyond the required columns, the tables have none that an approved word names. */
  predicate OnlyRequired(cs: Columns, words: set<string>) {
    forall w <- words ::
      (w in cs.product <==> w in REQUIRED.product) && (w in cs.inventory <==> w in REQUIRED.inventory)
  }

  lemma {:induction false} RequiredRowwise(e: Expr, p: string, i: string, cs: Columns, words: set<string>)
    requires V.ExprKnown(e, words) && OnlyRequired(cs, words)
    ensures Rowwise(e, p, i, cs) <==> Rowwise(e, p, i, REQUIRED)
  {
    match e
    case Column(_, _) =>
    case Number(_) =>
    case Call(_, _) =>
    case Arith(_, l, r) => RequiredRowwise(l, p, i, cs, words); RequiredRowwise(r, p, i, cs, words);
  }

  lemma {:induction false} RequiredYields(e: Expr, p: string, i: string, cs: Columns, words: set<string>)
    requires V.ExprKnown(e, words) && OnlyRequired(cs, words) && Complete(cs)
    ensures Yields(e, p, i, cs) == Yields(e, p, i, REQUIRED)
  {
    match e
    case Column(_, _) =>
    case Number(_) =>
    case Call(_, arg) => RequiredYields(arg, p, i, cs, words);
    case Arith(_, l, r) => RequiredYields(l, p, i, cs, words); RequiredYields(r, p, i, cs, words);
  }

  lemma {:induction false} RequiredGroupwise(e: Expr, p: string, i: string, cs: Columns, words: set<string>)
    requires V.ExprKnown(e, words) && OnlyRequired(cs, words)
    ensures Groupwise(e, p, i, cs) <==> Groupwise(e, p, i, REQUIRED)
  {
    match e
    case Column(_, _) =>
    case Number(_) =>
    case Call(_, arg) => RequiredRowwise(arg, p, i, cs, words);
    case Arith(_, l, r) => RequiredGroupwise(l, p, i, cs, words); RequiredGroupwise(r, p, i, cs, words);
  }

  /** On such tables the keys and the aliases alone decide. */
  lemma {:induction false} RequiredKeys(q: Query, cs: Columns)
    requires Family(q) && Complete(cs) && OnlyRequired(cs, Names(ProductAlias(q), InventoryAlias(q)))
    ensures SortKeys(q, cs) <==> Sortable(q)
  {
    var p, i := ProductAlias(q), InventoryAlias(q);
    forall k | k in q.orderBy ensures SortKey(k.expr, p, i, cs) <==> SortKey(k.expr, p, i, REQUIRED) {
      RequiredGroupwise(k.expr, p, i, cs, Names(p, i));
      RequiredYields(k.expr, p, i, cs, Names(p, i));
    }
  }
}
