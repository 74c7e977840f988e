/** The SELECT statements the SQL-writing prompt asks for, and how they are written. */
module SqlAst {
  import opened Text
  import G = Guardrail

  /** A name, with or without square brackets around it. */
  datatype Name = Name(text: string, bracketed: bool) {
    function Key(): string { Upper(text) }
  }

  datatype Aggregate = Sum | Count | Avg | Min | Max

  datatype ArithOp = Add | Sub | Mul

  datatype Expr =
    | Column(table: Option<Name>, column: Name)
    | Number(n: nat)
    | Call(fn: Aggregate, arg: Expr)
    | Arith(op: ArithOp, left: Expr, right: Expr)

  datatype Comparison = Eq | Ne | Lt | Le | Gt | Ge

  datatype Cond =
    | Compare(cmp: Comparison, lhs: Expr, rhs: Expr)
    | And(c1: Cond, c2: Cond)
    | Or(c1: Cond, c2: Cond)
    | Not(c: Cond)

  datatype Table = Table(schema: Option<Name>, name: Name, alias: Name)

  datatype JoinKind = BareJoin | InnerJoin | LeftJoin

  datatype Join = Join(kind: JoinKind, table: Table, on: Cond)

  datatype Item = Item(expr: Expr, alias: Option<Name>)

  datatype Direction = Asc | Desc

  datatype OrderKey = OrderKey(expr: Expr, direction: Option<Direction>)

  datatype Query = Query(
    top: nat,
    items: seq<Item>,
    from: Table,
    joins: seq<Join>,
    where: Option<Cond>,
    groupBy: seq<Expr>,
    having: Option<Cond>,
    orderBy: seq<OrderKey>)

  // -------------------------------------------------------- well-formedness

  /** A name is an identifier outside the guardrail's keyword lists. */
  predicate NameOk(n: Name) {
    && n.text != ""
    && IsIdentStart(n.text[0])
    && (forall c <- n.text :: IsWordChar(c))
    && n.Key() !in G.RESERVED_WORDS
    && n.Key() !in G.FORBIDDEN_KEYWORDS
  }

  predicate ExprOk(e: Expr) {
    match e
    case Column(t, c) => (t.Some? ==> NameOk(t.value)) && NameOk(c)
    case Number(_) => true
    case Call(_, a) => ExprOk(a)
    case Arith(_, l, r) => ExprOk(l) && ExprOk(r)
  }

  predicate CondOk(c: Cond) {
    match c
    case Compare(_, l, r) => ExprOk(l) && ExprOk(r)
    case And(a, b) => CondOk(a) && CondOk(b)
    case Or(a, b) => CondOk(a) && CondOk(b)
    case Not(a) => CondOk(a)
  }

  predicate TableOk(t: Table) {
    (t.schema.Some? ==> NameOk(t.schema.value)) && NameOk(t.name) && NameOk(t.alias)
  }

  predicate ItemOk(i: Item) { ExprOk(i.expr) && (i.alias.Some? ==> NameOk(i.alias.value)) }

  predicate WellFormed(q: Query) {
    && q.items != []
    && (forall i <- q.items :: ItemOk(i))
    && TableOk(q.from)
    && (forall j <- q.joins :: TableOk(j.table) && CondOk(j.on))
    && (q.where.Some? ==> CondOk(q.where.value))
    && (forall e <- q.groupBy :: ExprOk(e))
    && (q.having.Some? ==> CondOk(q.having.value))
    && (forall k <- q.orderBy :: ExprOk(k.expr))
  }

  // ---------------------------------------------------------------- printing

  function FnText(f: Aggregate): string {
    match f
    case Sum => "SUM" case Count => "COUNT" case Avg => "AVG" case Min => "MIN" case Max => "MAX"
  }

  function ArithChar(op: ArithOp): char {
    match op case Add => '+' case Sub => '-' case Mul => '*'
  }

  function CmpTokens(c: Comparison): seq<Token> {
    match c
    case Eq => [SP, Punct('='), SP]
    case Ne => [SP, Punct('<'), Punct('>'), SP]
    case Lt => [SP, Punct('<'), SP]
    case Le => [SP, Punct('<'), Punct('='), SP]
    case Gt => [SP, Punct('>'), SP]
    case Ge => [SP, Punct('>'), Punct('='), SP]
  }

  function PName(n: Name): seq<Token> {
    if n.bracketed then [Punct('['), Word(n.text), Punct(']')] else [Word(n.text)]
  }

  function Parens(ts: seq<Token>): seq<Token> { [Punct('(')] + ts + [Punct(')')] }

  function PExpr(e: Expr): seq<Token>
    decreases e, 0
  {
    match e
    case Column(None, c) => PName(c)
    case Column(Some(t), c) => PName(t) + [Punct('.')] + PName(c)
    case Number(n) => [Word(Decimal(n))]
    case Call(f, a) => [Word(FnText(f))] + Parens(PExpr(a))
    case Arith(op, l, r) =>
      POperand(l) + [SP, Punct(ArithChar(op)), SP] + POperand(r)
  }

  /** Arithmetic inside arithmetic is parenthesised. */
  function POperand(e: Expr): seq<Token>
    decreases e, 1
  {
    if e.Arith? then Parens(PExpr(e)) else PExpr(e)
  }

  /** A comparison inside AND, OR and NOT stands bare; anything else is parenthesised. */
  function PTerm(c: Cond): seq<Token>
    decreases c, 1
  {
    if c.Compare? then PCond(c) else Parens(PCond(c))
  }

  function PCond(c: Cond): seq<Token>
    decreases c, 0
  {
    match c
    case Compare(op, l, r) => PExpr(l) + CmpTokens(op) + PExpr(r)
    case And(a, b) => PTerm(a) + [SP, Word("AND"), SP] + PTerm(b)
    case Or(a, b) => PTerm(a) + [SP, Word("OR"), SP] + PTerm(b)
    case Not(a) => [Word("NOT")] + [SP] + PTerm(a)
  }

  function PTable(t: Table): seq<Token> {
    (if t.schema.Some? then PName(t.schema.value) + [Punct('.')] else [])
    + PName(t.name) + [SP, Word("AS"), SP] + PName(t.alias)
  }

  function PItem(i: Item): seq<Token> {
    PExpr(i.expr) + (if i.alias.Some? then [SP, Word("AS"), SP] + PName(i.alias.value) else [])
  }

  function PKey(k: OrderKey): seq<Token> {
    PExpr(k.expr)
    + match k.direction
      case None => []
      case Some(Asc) => [SP, Word("ASC")]
      case Some(Desc) => [SP, Word("DESC")]
  }

  function PList(items: seq<seq<Token>>): seq<Token> {
    if items == [] then []
    else if |items| == 1 then items[0]
    else items[0] + [Punct(','), SP] + PList(items[1..])
  }

  function PItems(items: seq<Item>): seq<seq<Token>> {
    seq(|items|, i requires 0 <= i < |items| => PItem(items[i]))
  }

  function PExprs(es: seq<Expr>): seq<seq<Token>> {
    seq(|es|, i requires 0 <= i < |es| => PExpr(es[i]))
  }

  function PKeys(ks: seq<OrderKey>): seq<seq<Token>> {
    seq(|ks|, i requires 0 <= i < |ks| => PKey(ks[i]))
  }

  function PKind(k: JoinKind): seq<Token> {
    match k
    case BareJoin => [Word("JOIN"), SP]
    case InnerJoin => [Word("INNER"), SP, Word("JOIN"), SP]
    case LeftJoin => [Word("LEFT"), SP, Word("JOIN"), SP]
  }

  function JoinBody(j: Join): seq<Token> { PTable(j.table) + [SP, Word("ON"), SP] + PCond(j.on) }

  function PJoin(j: Join): seq<Token> { PKind(j.kind) + JoinBody(j) }

  function PJoins(js: seq<Join>): seq<Token> {
    if js == [] then [] else [SP] + PJoin(js[0]) + PJoins(js[1..])
  }

  function PWhere(w: Option<Cond>): seq<Token> {
    if w.None? then [] else [SP, Word("WHERE"), SP] + PCond(w.value)
  }

  function PGroupBy(es: seq<Expr>): seq<Token> {
    if es == [] then [] else [SP, Word("GROUP"), SP, Word("BY"), SP] + PList(PExprs(es))
  }

  function PHaving(h: Option<Cond>): seq<Token> {
    if h.None? then [] else [SP, Word("HAVING"), SP] + PCond(h.value)
  }

  function POrderBy(ks: seq<OrderKey>): seq<Token> {
    if ks == [] then [] else [SP, Word("ORDER"), SP, Word("BY"), SP] + PList(PKeys(ks))
  }

  function PHead(q: Query): seq<Token> {
    [Word("SELECT"), SP, Word("TOP"), SP, Punct('('), Word(Decimal(q.top)), Punct(')'), SP]
  }

  /** Everything after the joins. */
  function PTail(q: Query): seq<Token> {
    PWhere(q.where) + PGroupBy(q.groupBy) + PHaving(q.having) + POrderBy(q.orderBy)
  }

  function PFrom(q: Query): seq<Token> {
    [Word("FROM"), SP] + PTable(q.from) + PJoins(q.joins)
  }

  function Print(q: Query): seq<Token> {
    PHead(q) + (PList(PItems(q.items)) + [SP]) + PFrom(q) + PTail(q)
  }

  function SqlText(q: Query): string { Unlex(Print(q)) }
}
