/** What the statements mean: a relational evaluator with three-valued logic. Null
    extension, grouping and HAVING follow sections 7.7, 7.9 and 7.10 of ISO/IEC
    9075-2:2003; TOP and ORDER BY (names, positions, constants, repeated columns) follow
    Transact-SQL, and so do the kinds of values that aggregates and arithmetic take. Names
    compare without regard to case. */
module Sql {
  import opened Sequences
  import opened Text
  import opened SqlAst

  datatype Value = Null | Int(n: int) | Str(s: string)

  datatype Truth = True | False | Unknown

  type Row = map<string, Value>

  /** A row of a join: the row each table alias contributes. */
  type Env = map<string, Row>

  datatype TableId = TableId(schema: string, name: string)

  /** What a column holds: numbers, text or something else. */
  datatype Kind = Numbers | Texts | Others

  datatype TableData = TableData(columns: map<string, Kind>, rows: seq<Row>)

  datatype Database = Database(tables: map<TableId, TableData>, defaultSchema: string)

  /** What the server adds: how it compares, computes with and aggregates values that are
      not all integers (collations, conversions). Nothing is assumed about it. */
  datatype Server = Server(
    order: (Value, Value) -> int,
    arith: (ArithOp, Value, Value) -> Value,
    aggregate: (Aggregate, seq<Value>) -> Value)

  datatype Relation = Relation(header: seq<string>, rows: seq<seq<Value>>)

  // ---------------------------------------------------------------- scalars

  function Diff(a: Value, b: Value, sv: Server): int {
    if a.Int? && b.Int? then a.n - b.n else sv.order(a, b)
  }

  function Compare3(cmp: Comparison, a: Value, b: Value, sv: Server): Truth {
    if a.Null? || b.Null? then Unknown
    else
      var d := Diff(a, b, sv);
      var holds := match cmp
        case Eq => d == 0 case Ne => d != 0 case Lt => d < 0
        case Le => d <= 0 case Gt => d > 0 case Ge => d >= 0;
      if holds then True else False
  }

  function And3(a: Truth, b: Truth): Truth {
    if a.False? || b.False? then False else if a.True? && b.True? then True else Unknown
  }

  function Not3(a: Truth): Truth {
    match a case True => False case False => True case Unknown => Unknown
  }

  function Or3(a: Truth, b: Truth): Truth { Not3(And3(Not3(a), Not3(b))) }

  function Compute(op: ArithOp, a: Value, b: Value, sv: Server): Value {
    if a.Null? || b.Null? then Null
    else if a.Int? && b.Int? then
      Int(match op case Add => a.n + b.n case Sub => a.n - b.n case Mul => a.n * b.n)
    else sv.arith(op, a, b)
  }

  // ------------------------------------------------------------- aggregates

  predicate AllInts(vs: seq<Value>) { forall v <- vs :: v.Int? }

  function Total(vs: seq<Value>): int
    requires AllInts(vs)
  {
    if vs == [] then 0
    else
      assert vs[0] in vs && forall v <- vs[1..] :: v in vs;
      vs[0].n + Total(vs[1..])
  }

  function Least(vs: seq<Value>): int
    requires vs != [] && AllInts(vs)
  {
    assert vs[0] in vs && forall v <- vs[1..] :: v in vs;
    if |vs| == 1 || vs[0].n <= Least(vs[1..]) then vs[0].n else Least(vs[1..])
  }

  function Greatest(vs: seq<Value>): int
    requires vs != [] && AllInts(vs)
  {
    assert vs[0] in vs && forall v <- vs[1..] :: v in vs;
    if |vs| == 1 || vs[0].n >= Greatest(vs[1..]) then vs[0].n else Greatest(vs[1..])
  }

  /** Division that drops the fraction, as the server divides integers. */
  function Quotient(a: int, b: int): int
    requires b > 0
  {
    if a >= 0 then a / b else -(-a / b)
  }

  /** An aggregate over the values that are not null. */
  function Aggregated(fn: Aggregate, vs: seq<Value>, sv: Server): Value {
    if fn.Count? then Int(|vs|)
    else if vs == [] then Null
    else if !AllInts(vs) then sv.aggregate(fn, vs)
    else
      Int(match fn
          case Sum => Total(vs)
          case Avg => Quotient(Total(vs), |vs|)
          case Min => Least(vs)
          case Max => Greatest(vs)
          case Count => |vs|)
  }

  // ------------------------------------------------------------ expressions

  /** The value of a column in a joined row. */
  ghost function Read(table: Option<Name>, column: string, env: Env): Value {
    if table.Some? then
      var t := table.value.Key();
      if t in env && column in env[t] then env[t][column] else Null
    else if exists t :: t in env && column in env[t] then
      var t :| t in env && column in env[t];
      env[t][column]
    else Null
  }

  /** The value of an expression over a group of rows; outside aggregates the first row speaks. */
  ghost function Eval(e: Expr, group: seq<Env>, sv: Server): Value
    decreases e, 0
  {
    match e
    case Column(t, c) => if group == [] then Null else Read(t, c.Key(), group[0])
    case Number(n) => Int(n)
    case Call(fn, arg) => Aggregated(fn, Present(arg, group, sv), sv)
    case Arith(op, l, r) => Compute(op, Eval(l, group, sv), Eval(r, group, sv), sv)
  }

  /** The values an expression has in the rows of a group, nulls left out. */
  ghost function Present(e: Expr, group: seq<Env>, sv: Server): seq<Value>
    decreases e, 1, |group|
  {
    if group == [] then []
    else
      var v := Eval(e, [group[0]], sv);
      (if v.Null? then [] else [v]) + Present(e, group[1..], sv)
  }

  ghost function Judge(c: Cond, group: seq<Env>, sv: Server): Truth {
    match c
    case Compare(cmp, l, r) => Compare3(cmp, Eval(l, group, sv), Eval(r, group, sv), sv)
    case And(a, b) => And3(Judge(a, group, sv), Judge(b, group, sv))
    case Or(a, b) => Or3(Judge(a, group, sv), Judge(b, group, sv))
    case Not(a) => Not3(Judge(a, group, sv))
  }

  // ------------------------------------------------------------------ joins

  function Find(t: Table, db: Database): Option<TableData> {
    var id := TableId(if t.schema.Some? then t.schema.value.Key() else db.defaultSchema, t.name.Key());
    if id in db.tables then Some(db.tables[id]) else None
  }

  function Contents(t: Table, db: Database): TableData { Find(t, db).GetOr(TableData(map[], [])) }

  function NullRow(columns: map<string, Kind>): Row { map c | c in columns :: Null }

  function Start(alias: string, rows: seq<Row>): seq<Env> {
    if rows == [] then [] else [map[alias := rows[0]]] + Start(alias, rows[1..])
  }

  /** The rows of a table for which the join condition holds next to `env`. */
  ghost function Matching(on: Cond, alias: string, env: Env, rows: seq<Row>, sv: Server): seq<Env> {
    if rows == [] then []
    else
      var joined := env[alias := rows[0]];
      (if Judge(on, [joined], sv).True? then [joined] else [])
      + Matching(on, alias, env, rows[1..], sv)
  }

  ghost function Extend(j: Join, env: Env, data: TableData, sv: Server): seq<Env> {
    var found := Matching(j.on, j.table.alias.Key(), env, data.rows, sv);
    if found == [] && j.kind.LeftJoin? then [env[j.table.alias.Key() := NullRow(data.columns)]] else found
  }

  ghost function JoinOne(j: Join, left: seq<Env>, data: TableData, sv: Server): seq<Env> {
    if left == [] then [] else Extend(j, left[0], data, sv) + JoinOne(j, left[1..], data, sv)
  }

  ghost function JoinAll(js: seq<Join>, left: seq<Env>, db: Database, sv: Server): seq<Env>
    decreases js
  {
    if js == [] then left
    else JoinAll(js[1..], JoinOne(js[0], left, Contents(js[0].table, db), sv), db, sv)
  }

  ghost function Joined(q: Query, db: Database, sv: Server): seq<Env> {
    JoinAll(q.joins, Start(q.from.alias.Key(), Contents(q.from, db).rows), db, sv)
  }

  ghost function Filtered(c: Cond, rows: seq<Env>, sv: Server): seq<Env> {
    if rows == [] then []
    else (if Judge(c, [rows[0]], sv).True? then [rows[0]] else []) + Filtered(c, rows[1..], sv)
  }

  /** The rows that reach grouping. */
  ghost function Source(q: Query, db: Database, sv: Server): seq<Env> {
    if q.where.None? then Joined(q, db, sv) else Filtered(q.where.value, Joined(q, db, sv), sv)
  }

  // --------------------------------------------------------------- grouping

  /** Nulls fall into one group. */
  function Same(a: Value, b: Value, sv: Server): bool {
    a == b || (!a.Null? && !b.Null? && Diff(a, b, sv) == 0)
  }

  ghost predicate SameKeys(keys: seq<Expr>, a: Env, b: Env, sv: Server) {
    forall k <- keys :: Same(Eval(k, [a], sv), Eval(k, [b], sv), sv)
  }

  /** The rows that agree with `first` on the keys, or (when `!agree`) those that do not. */
  ghost function Like(keys: seq<Expr>, first: Env, rows: seq<Env>, agree: bool, sv: Server): (r: seq<Env>)
    ensures |r| <= |rows|
  {
    if rows == [] then []
    else
      (if SameKeys(keys, first, rows[0], sv) == agree then [rows[0]] else [])
      + Like(keys, first, rows[1..], agree, sv)
  }

  ghost function Groups(keys: seq<Expr>, rows: seq<Env>, sv: Server): seq<seq<Env>>
    decreases |rows|
  {
    if rows == [] then []
    else
      [[rows[0]] + Like(keys, rows[0], rows[1..], true, sv)]
      + Groups(keys, Like(keys, rows[0], rows[1..], false, sv), sv)
  }

  predicate Aggregates(e: Expr) {
    match e
    case Column(_, _) => false
    case Number(_) => false
    case Call(_, _) => true
    case Arith(_, l, r) => Aggregates(l) || Aggregates(r)
  }

  /** Whether the statement returns one row per group. */
  predicate Grouping(q: Query) {
    || q.groupBy != [] || q.having.Some?
    || (exists x <- q.items :: Aggregates(x.expr))
    || (exists k <- q.orderBy :: Aggregates(k.expr))
  }

  ghost function Singles(rows: seq<Env>): seq<seq<Env>> {
    if rows == [] then [] else [[rows[0]]] + Singles(rows[1..])
  }

  ghost function AllGroups(q: Query, db: Database, sv: Server): seq<seq<Env>> {
    var rows := Source(q, db, sv);
    if q.groupBy != [] then Groups(q.groupBy, rows, sv)
    else if Grouping(q) then [rows]
    else Singles(rows)
  }

  ghost function Having(c: Cond, groups: seq<seq<Env>>, sv: Server): seq<seq<Env>> {
    if groups == [] then []
    else (if Judge(c, groups[0], sv).True? then [groups[0]] else []) + Having(c, groups[1..], sv)
  }

  /** The groups that HAVING keeps. */
  ghost function Kept(q: Query, db: Database, sv: Server): seq<seq<Env>> {
    if q.having.None? then AllGroups(q, db, sv) else Having(q.having.value, AllGroups(q, db, sv), sv)
  }

  // --------------------------------------------------------------- ordering

  function Title(x: Item): string {
    if x.alias.Some? then x.alias.value.text else if x.expr.Column? then x.expr.column.text else ""
  }

  /** The first item with the name of an unqualified column. */
  function ItemNamed(e: Expr, items: seq<Item>): (n: Option<nat>)
    ensures n.Some? ==>
      && n.value < |items| && e.Column? && e.table.None?
      && Upper(Title(items[n.value])) == e.column.Key()
  {
    if items == [] || !e.Column? || e.table.Some? then None
    else if Upper(Title(items[0])) == e.column.Key() then Some(0)
    else
      match ItemNamed(e, items[1..])
      case None => None
      case Some(n) => Some(n + 1)
  }

  /** The item an ORDER BY key stands for, by its position or by its output name. */
  function KeyItem(e: Expr, items: seq<Item>): (n: Option<nat>)
    ensures n.Some? ==> n.value < |items|
  {
    if e.Number? then (if 1 <= e.n <= |items| then Some(e.n - 1) else None) else ItemNamed(e, items)
  }

  /** What an ORDER BY key reads. */
  function KeyReads(e: Expr, items: seq<Item>): Expr {
    match KeyItem(e, items) case None => e case Some(n) => items[n].expr
  }

  ghost function KeyValue(k: OrderKey, items: seq<Item>, group: seq<Env>, sv: Server): Value {
    Eval(KeyReads(k.expr, items), group, sv)
  }

  /** Nulls sort lowest. */
  function Less(a: Value, b: Value, sv: Server): bool {
    !b.Null? && (a.Null? || Diff(a, b, sv) < 0)
  }

  ghost predicate Precedes(ks: seq<OrderKey>, items: seq<Item>, g: seq<Env>, h: seq<Env>, sv: Server) {
    ks != [] &&
    var a, b := KeyValue(ks[0], items, g, sv), KeyValue(ks[0], items, h, sv);
    var down := ks[0].direction == Some(Desc);
    if Less(a, b, sv) then !down
    else if Less(b, a, sv) then down
    else Precedes(ks[1..], items, g, h, sv)
  }

  ghost predicate Ordered(q: Query, gs: seq<seq<Env>>, sv: Server) {
    forall a, b :: 0 <= a < b < |gs| ==> !Precedes(q.orderBy, q.items, gs[b], gs[a], sv)
  }

  // ----------------------------------------------------------- static rules

  type Scope = map<string, map<string, Kind>>

  /** The table and column a column reference names, when that is unambiguous. */
  ghost function Resolve(e: Expr, scope: Scope): (r: Option<(string, string)>)
    requires e.Column?
    ensures r.Some? ==> r.value.0 in scope && r.value.1 in scope[r.value.0]
  {
    var c := e.column.Key();
    if e.table.Some? then
      var t := e.table.value.Key();
      if t in scope && c in scope[t] then Some((t, c)) else None
    else if exists t :: t in scope && c in scope[t] then
      var t :| t in scope && c in scope[t];
      if forall u :: u in scope && c in scope[u] ==> u == t then Some((t, c)) else None
    else None
  }

  /** No aggregate, and every column resolves. */
  ghost predicate Scalar(e: Expr, scope: Scope) {
    match e
    case Column(_, _) => Resolve(e, scope).Some?
    case Number(_) => true
    case Call(_, _) => false
    case Arith(_, l, r) => Scalar(l, scope) && Scalar(r, scope)
  }

  // What an aggregate or an operation yields, when it takes its operands.

  function CallKind(fn: Aggregate, arg: Option<Kind>): Option<Kind> {
    match fn
    case Count => if arg.Some? then Some(Numbers) else None
    case Min => arg
    case Max => arg
    case _ => if arg == Some(Numbers) then arg else None
  }

  /** Numbers are computed with; text can only be strung together. */
  function ArithKind(op: ArithOp, l: Option<Kind>, r: Option<Kind>): Option<Kind> {
    if l == r && (l == Some(Numbers) || (l == Some(Texts) && op.Add?)) then l else None
  }

  ghost function KindOf(e: Expr, scope: Scope): Option<Kind> {
    match e
    case Column(_, _) =>
      (match Resolve(e, scope) case None => None case Some(c) => Some(scope[c.0][c.1]))
    case Number(_) => Some(Numbers)
    case Call(fn, arg) => CallKind(fn, KindOf(arg, scope))
    case Arith(op, l, r) => ArithKind(op, KindOf(l, scope), KindOf(r, scope))
  }

  ghost predicate Comparable(l: Expr, r: Expr, scope: Scope) {
    KindOf(l, scope).Some? && KindOf(l, scope) == KindOf(r, scope)
  }

  /** Neither a column nor an aggregate. */
  predicate Constant(e: Expr) {
    match e
    case Column(_, _) => false
    case Number(_) => true
    case Call(_, _) => false
    case Arith(_, l, r) => Constant(l) && Constant(r)
  }

  ghost predicate ScalarCond(c: Cond, scope: Scope) {
    match c
    case Compare(_, l, r) => Scalar(l, scope) && Scalar(r, scope) && Comparable(l, r, scope)
    case And(a, b) => ScalarCond(a, scope) && ScalarCond(b, scope)
    case Or(a, b) => ScalarCond(a, scope) && ScalarCond(b, scope)
    case Not(a) => ScalarCond(a, scope)
  }

  /** Outside aggregates, a grouped expression uses group columns only. */
  ghost predicate PerGroup(e: Expr, keys: seq<Expr>, scope: Scope) {
    match e
    case Column(_, _) =>
      Resolve(e, scope).Some? &&
      exists k <- keys :: k.Column? && Resolve(k, scope) == Resolve(e, scope)
    case Number(_) => true
    case Call(_, arg) => Scalar(arg, scope)
    case Arith(_, l, r) => PerGroup(l, keys, scope) && PerGroup(r, keys, scope)
  }

  ghost predicate PerGroupCond(c: Cond, keys: seq<Expr>, scope: Scope) {
    match c
    case Compare(_, l, r) =>
      PerGroup(l, keys, scope) && PerGroup(r, keys, scope) && Comparable(l, r, scope)
    case And(a, b) => PerGroupCond(a, keys, scope) && PerGroupCond(b, keys, scope)
    case Or(a, b) => PerGroupCond(a, keys, scope) && PerGroupCond(b, keys, scope)
    case Not(a) => PerGroupCond(a, keys, scope)
  }

  /** Joined tables exist under fresh aliases, and each ON sees the tables so far. */
  ghost predicate JoinsSound(js: seq<Join>, scope: Scope, db: Database)
    decreases js
  {
    js == [] ||
    var a := js[0].table.alias.Key();
    var wider := scope[a := Contents(js[0].table, db).columns];
    && Find(js[0].table, db).Some? && a !in scope
    && ScalarCond(js[0].on, wider)
    && JoinsSound(js[1..], wider, db)
  }

  ghost function ScopeAfter(js: seq<Join>, scope: Scope, db: Database): Scope
    decreases js
  {
    if js == [] then scope
    else ScopeAfter(js[1..], scope[js[0].table.alias.Key() := Contents(js[0].table, db).columns], db)
  }

  ghost function FullScope(q: Query, db: Database): Scope {
    ScopeAfter(q.joins, map[q.from.alias.Key() := Contents(q.from, db).columns], db)
  }

  ghost predicate OutputSound(e: Expr, q: Query, scope: Scope) {
    && (if Grouping(q) then PerGroup(e, q.groupBy, scope) else Scalar(e, scope))
    && KindOf(e, scope).Some?
  }

  /** A sort key stands for an item, or computes something. */
  ghost predicate KeySound(k: OrderKey, q: Query, scope: Scope) {
    KeyItem(k.expr, q.items).Some? || (!Constant(k.expr) && OutputSound(k.expr, q, scope))
  }

  /** What a sort key orders by, as far as repetition is concerned. */
  datatype Target = OfColumn(table: string, column: string) | OfItem(n: nat) | Computed

  ghost function TargetOf(e: Expr, items: seq<Item>, scope: Scope): Target {
    var x := KeyReads(e, items);
    if x.Column? && Resolve(x, scope).Some? then
      OfColumn(Resolve(x, scope).value.0, Resolve(x, scope).value.1)
    else if KeyItem(e, items).Some? then OfItem(KeyItem(e, items).value)
    else Computed
  }

  /** No column and no item is sorted by twice. */
  ghost predicate KeysDistinct(q: Query, scope: Scope) {
    forall a, b :: 0 <= a < b < |q.orderBy| ==>
      var t := TargetOf(q.orderBy[a].expr, q.items, scope);
      t.Computed? || t != TargetOf(q.orderBy[b].expr, q.items, scope)
  }

  /** The server accepts the statement: names resolve, grouping is respected, operations take
      their operands, and the sort keys are in order. */
  ghost predicate Sound(q: Query, db: Database) {
    && Find(q.from, db).Some?
    && JoinsSound(q.joins, map[q.from.alias.Key() := Contents(q.from, db).columns], db)
    && var scope := FullScope(q, db);
       && (q.where.Some? ==> ScalarCond(q.where.value, scope))
       && (forall e <- q.groupBy :: Scalar(e, scope) && KindOf(e, scope).Some? && !Constant(e))
       && (q.having.Some? ==> PerGroupCond(q.having.value, q.groupBy, scope))
       && (forall x <- q.items :: OutputSound(x.expr, q, scope))
       && (forall k <- q.orderBy :: KeySound(k, q, scope))
       && KeysDistinct(q, scope)
  }

  // ---------------------------------------------------------------- results

  function Header(items: seq<Item>): (h: seq<string>)
    ensures |h| == |items| && forall k :: 0 <= k < |h| ==> h[k] == Title(items[k])
  {
    seq(|items|, k requires 0 <= k < |items| => Title(items[k]))
  }

  ghost function ShowRow(items: seq<Item>, group: seq<Env>, sv: Server): (r: seq<Value>)
    ensures |r| == |items| && forall k :: 0 <= k < |r| ==> r[k] == Eval(items[k].expr, group, sv)
  {
    seq(|items|, k requires 0 <= k < |items| => Eval(items[k].expr, group, sv))
  }

  ghost function ShowRows(items: seq<Item>, gs: seq<seq<Env>>, sv: Server): (r: seq<seq<Value>>)
    ensures |r| == |gs| && forall k :: 0 <= k < |r| ==> r[k] == ShowRow(items, gs[k], sv)
  {
    seq(|gs|, k requires 0 <= k < |gs| => ShowRow(items, gs[k], sv))
  }

  /** `gs` is the kept groups in an order that ORDER BY allows. */
  ghost predicate Arranged(q: Query, gs: seq<seq<Env>>, db: Database, sv: Server) {
    multiset(gs) == multiset(Kept(q, db, sv)) && Ordered(q, gs, sv)
  }

  /** `r` is a result the server may return: the first TOP rows of the kept groups, in some
      order that ORDER BY allows. */
  ghost predicate Returns(q: Query, db: Database, sv: Server, r: Relation) {
    && Sound(q, db)
    && exists gs :: Arranged(q, gs, db, sv)
                 && r == Relation(Header(q.items), ShowRows(q.items, First(q.top, gs), sv))
  }
}
