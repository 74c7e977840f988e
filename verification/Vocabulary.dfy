/** Rules 1 to 7 and 11 on printed statements: which characters and which words
    they can contain. */
module Vocabulary {
  import opened Text
  import opened SqlAst
  import opened Printed
  import opened Scanning
  import opened Sections
  import G = Guardrail

  // ------------------------------------------------ characters and tokens

  lemma {:induction false} PunctInText(ts: seq<Token>, c: char)
    requires forall t <- ts :: TokenOk(t)
    requires TokenOk(Punct(c))
    ensures c in Unlex(ts) <==> Punct(c) in ts
  {
    if ts != [] {
      assert ts[0] in ts;
      assert forall t <- ts[1..] :: t in ts;
      PunctInText(ts[1..], c);
      assert Punct(c) in ts <==> Punct(c) == ts[0] || Punct(c) in ts[1..];
    }
  }

  lemma {:induction false} NoDoubleDash(ts: seq<Token>)
    requires (forall t <- ts :: TokenOk(t)) && DashSpaced(ts)
    ensures !G.HasAdjacent(Unlex(ts), '-', '-')
  {
    if ts != [] {
      var raw, rest := Raw(ts[0]), Unlex(ts[1..]);
      assert ts[0] in ts;
      assert forall t <- ts[1..] :: t in ts;
      NoDoubleDash(ts[1..]) by {
        forall i | 0 <= i < |ts[1..]| && ts[1..][i] == Punct('-')
          ensures i + 1 < |ts[1..]| && ts[1..][i + 1] == SP
        {
          assert ts[i + 1] == Punct('-');
        }
      }
      forall k | 0 <= k < |raw + rest| - 1 && (raw + rest)[k] == '-'
        ensures (raw + rest)[k + 1] != '-'
      {
        if k < |raw| {
          assert raw[k] in raw;
          assert ts[0] == Punct('-') && ts[1] == SP;
          assert Unlex(ts[1..])[0] == ' ';
        } else {
          assert rest[k - |raw|] == '-';
        }
      }
    }
  }

  predicate StarFree(ts: seq<Token>) { Punct('*') !in ts }

  lemma {:induction false} PlainFragment(ts: seq<Token>)
    requires Fragment(ts)
    ensures G.PlainText(Unlex(ts)) <==> StarFree(ts)
  {
    assert forall t <- ts :: TokenOk(t);
    Unprinted(ts, ';');
    Unprinted(ts, '\'');
    Unprinted(ts, '/');
    PunctInText(ts, '*');
    NoDoubleDash(ts);
  }

  /** Characters that printed SQL never uses. */
  lemma {:induction false} Unprinted(ts: seq<Token>, c: char)
    requires (forall t <- ts :: TokenOk(t) && PunctOk(t)) && (c == ';' || c == '\'' || c == '/')
    ensures c !in Unlex(ts)
  {
    PunctInText(ts, c);
    assert !PunctOk(Punct(c));
  }

  /** Of the character rules, printed statements can only break the one on stars. */
  lemma {:induction false} PlainStatement(q: Query)
    requires WellFormed(q)
    ensures G.PlainText(SqlText(q)) <==> StarFree(Print(q))
  {
    PrintFragment(q);
    PlainFragment(Print(q));
  }

  // ------------------------------------------------------------- vocabulary

  predicate KnownToken(t: Token, names: set<string>) {
    && t != Punct('*')
    && (t.Word? && G.IdentOf(t.text) != "" ==> Upper(G.IdentOf(t.text)) in names)
  }

  predicate Known(ts: seq<Token>, names: set<string>) { forall t <- ts :: KnownToken(t, names) }

  /** Every name of the expression is known, and nothing is multiplied. */
  predicate ExprKnown(e: Expr, names: set<string>) {
    match e
    case Column(t, c) => (t.Some? ==> t.value.Key() in names) && c.Key() in names
    case Number(_) => true
    case Call(_, a) => ExprKnown(a, names)
    case Arith(op, l, r) => op != Mul && ExprKnown(l, names) && ExprKnown(r, names)
  }

  predicate CondKnown(c: Cond, names: set<string>) {
    match c
    case Compare(_, l, r) => ExprKnown(l, names) && ExprKnown(r, names)
    case And(a, b) => CondKnown(a, names) && CondKnown(b, names)
    case Or(a, b) => CondKnown(a, names) && CondKnown(b, names)
    case Not(a) => CondKnown(a, names)
  }

  predicate TableKnown(t: Table, names: set<string>) {
    && (t.schema.Some? ==> t.schema.value.Key() in names)
    && t.name.Key() in names && t.alias.Key() in names
  }

  predicate ItemKnown(i: Item, names: set<string>) {
    ExprKnown(i.expr, names) && (i.alias.Some? ==> i.alias.value.Key() in names)
  }

  predicate QueryKnown(q: Query, names: set<string>) {
    && (forall i <- q.items :: ItemKnown(i, names))
    && TableKnown(q.from, names)
    && (forall j <- q.joins :: TableKnown(j.table, names) && CondKnown(j.on, names))
    && (q.where.Some? ==> CondKnown(q.where.value, names))
    && (forall e <- q.groupBy :: ExprKnown(e, names))
    && (q.having.Some? ==> CondKnown(q.having.value, names))
    && (forall k <- q.orderBy :: ExprKnown(k.expr, names))
  }

  lemma {:induction false} KnownSingle(t: Token, names: set<string>)
    ensures Known([t], names) <==> KnownToken(t, names)
  {
    assert t in [t];
  }

  lemma {:induction false} NameKnown(n: Name, names: set<string>)
    requires NameOk(n)
    ensures Known(PName(n), names) <==> n.Key() in names
  {
    assert G.IdentOf(n.text) == n.text;
    KnownSingle(Word(n.text), names);
    assert Word(n.text) in PName(n);
  }

  lemma {:induction false} AllDigits(w: string)
    requires forall c <- w :: IsDigit(c)
    ensures G.LeadingDigits(w) == w
  {
    if w != "" {
      assert w[0] in w;
      assert forall c <- w[1..] :: c in w;
      AllDigits(w[1..]);
    }
  }

  lemma {:induction false} NumberKnown(n: nat, names: set<string>)
    ensures Known([Word(Decimal(n))], names)
  {
    DecimalReads(n);
    AllDigits(Decimal(n));
  }

  lemma {:induction false} ReservedKnown(w: string, names: set<string>)
    requires w in G.RESERVED_WORDS && G.RESERVED_WORDS <= names && Upper(w) == w
    ensures KnownToken(Word(w), names)
  {
    KeywordsAreNames(w);
  }

  lemma {:induction false} OperatorKnown(w: string, names: set<string>)
    requires w in {"SUM", "COUNT", "AVG", "MIN", "MAX", "AND", "OR", "NOT"}
    requires G.RESERVED_WORDS <= names
    ensures Known([Word(w)], names)
  {
    assert Upper(w) == w;
    assert w in G.RESERVED_WORDS;
    ReservedKnown(w, names);
  }

  lemma {:induction false} KnownConcat(a: seq<Token>, b: seq<Token>, names: set<string>)
    ensures Known(a + b, names) <==> Known(a, names) && Known(b, names)
  {
    assert forall t <- a :: t in a + b;
    assert forall t <- b :: t in a + b;
  }

  lemma {:induction false} KnownSep(a: seq<Token>, sep: seq<Token>, b: seq<Token>, names: set<string>)
    ensures Known(a + sep + b, names) <==> Known(a, names) && Known(sep, names) && Known(b, names)
  {
    KnownConcat(a + sep, b, names);
    KnownConcat(a, sep, names);
  }

  lemma {:induction false} ExprVocabulary(e: Expr, names: set<string>)
    requires ExprOk(e) && G.RESERVED_WORDS <= names
    ensures Known(PExpr(e), names) <==> ExprKnown(e, names)
    decreases e, 0
  {
    match e
    case Column(None, c) => NameKnown(c, names);
    case Column(Some(t), c) =>
      NameKnown(t, names);
      NameKnown(c, names);
      KnownSep(PName(t), [Punct('.')], PName(c), names);
    case Number(n) => NumberKnown(n, names);
    case Call(f, a) =>
      ExprVocabulary(a, names);
      OperatorKnown(FnText(f), names);
      KnownConcat([Word(FnText(f))], Parens(PExpr(a)), names);
    case Arith(op, l, r) =>
      OperandVocabulary(l, names);
      OperandVocabulary(r, names);
      KnownSep([SP], [Punct(ArithChar(op))], [SP], names);
      KnownSingle(Punct(ArithChar(op)), names);
      KnownSingle(SP, names);
      assert [SP] + [Punct(ArithChar(op))] + [SP] == [SP, Punct(ArithChar(op)), SP];
      KnownSep(POperand(l), [SP, Punct(ArithChar(op)), SP], POperand(r), names);
  }

  lemma {:induction false} OperandVocabulary(e: Expr, names: set<string>)
    requires ExprOk(e) && G.RESERVED_WORDS <= names
    ensures Known(POperand(e), names) <==> ExprKnown(e, names)
    decreases e, 1
  {
    ExprVocabulary(e, names);
  }

  lemma {:induction false} CondVocabulary(c: Cond, names: set<string>)
    requires CondOk(c) && G.RESERVED_WORDS <= names
    ensures Known(PCond(c), names) <==> CondKnown(c, names)
    decreases c, 0
  {
    match c
    case Compare(op, l, r) =>
      ExprVocabulary(l, names);
      ExprVocabulary(r, names);
      KnownSep(PExpr(l), CmpTokens(op), PExpr(r), names);
    case And(a, b) =>
      TermVocabulary(a, names);
      TermVocabulary(b, names);
      OperatorKnown("AND", names);
      KnownSep(PTerm(a), [SP, Word("AND"), SP], PTerm(b), names);
    case Or(a, b) =>
      TermVocabulary(a, names);
      TermVocabulary(b, names);
      OperatorKnown("OR", names);
      KnownSep(PTerm(a), [SP, Word("OR"), SP], PTerm(b), names);
    case Not(a) =>
      TermVocabulary(a, names);
      OperatorKnown("NOT", names);
      KnownSep([Word("NOT")], [SP], PTerm(a), names);
  }

  lemma {:induction false} TermVocabulary(c: Cond, names: set<string>)
    requires CondOk(c) && G.RESERVED_WORDS <= names
    ensures Known(PTerm(c), names) <==> CondKnown(c, names)
    decreases c, 1
  {
    CondVocabulary(c, names);
  }

  // ---------------------------------------------------------------- clauses

  lemma {:induction false} StructureKnown(w: string, names: set<string>)
    requires w in {"SELECT", "FROM", "JOIN", "INNER", "LEFT", "ON", "WHERE", "GROUP", "BY",
                   "HAVING", "ORDER", "ASC", "DESC", "TOP", "AS"}
    requires G.RESERVED_WORDS <= names
    ensures Known([Word(w)], names) && Known([SP, Word(w), SP], names)
  {
    assert w in G.RESERVED_WORDS;
    ReservedKnown(w, names);
  }

  lemma {:induction false} TableVocabulary(t: Table, names: set<string>)
    requires TableOk(t) && G.RESERVED_WORDS <= names
    ensures Known(PTable(t), names) <==> TableKnown(t, names)
  {
    var schema := if t.schema.Some? then PName(t.schema.value) + [Punct('.')] else [];
    NameKnown(t.name, names);
    NameKnown(t.alias, names);
    if t.schema.Some? {
      NameKnown(t.schema.value, names);
      KnownConcat(PName(t.schema.value), [Punct('.')], names);
      KnownSingle(Punct('.'), names);
    }
    StructureKnown("AS", names);
    KnownConcat(schema, PName(t.name), names);
    KnownSep(schema + PName(t.name), [SP, Word("AS"), SP], PName(t.alias), names);
  }

  lemma {:induction false} ItemVocabulary(i: Item, names: set<string>)
    requires ItemOk(i) && G.RESERVED_WORDS <= names
    ensures Known(PItem(i), names) <==> ItemKnown(i, names)
  {
    ExprVocabulary(i.expr, names);
    if i.alias.Some? {
      NameKnown(i.alias.value, names);
      StructureKnown("AS", names);
      KnownConcat([SP, Word("AS"), SP], PName(i.alias.value), names);
      KnownConcat(PExpr(i.expr), [SP, Word("AS"), SP] + PName(i.alias.value), names);
    } else {
      assert PItem(i) == PExpr(i.expr);
    }
  }

  lemma {:induction false} KeyVocabulary(k: OrderKey, names: set<string>)
    requires ExprOk(k.expr) && G.RESERVED_WORDS <= names
    ensures Known(PKey(k), names) <==> ExprKnown(k.expr, names)
  {
    ExprVocabulary(k.expr, names);
    if k.direction.Some? {
      var w := if k.direction.value.Asc? then "ASC" else "DESC";
      StructureKnown(w, names);
      KnownConcat([SP], [Word(w)], names);
      KnownSingle(SP, names);
      assert [SP] + [Word(w)] == [SP, Word(w)];
      KnownConcat(PExpr(k.expr), [SP, Word(w)], names);
    } else {
      assert PKey(k) == PExpr(k.expr);
    }
  }

  lemma {:induction false} ListVocabulary(xs: seq<seq<Token>>, names: set<string>)
    ensures Known(PList(xs), names) <==> forall x <- xs :: Known(x, names)
  {
    if |xs| > 1 {
      ListVocabulary(xs[1..], names);
      KnownSep(xs[0], [Punct(','), SP], PList(xs[1..]), names);
      assert xs == [xs[0]] + xs[1..];
    } else if |xs| == 1 {
      assert xs[0] in xs;
    }
  }

  lemma {:induction false} ItemsVocabulary(items: seq<Item>, names: set<string>)
    requires (forall i <- items :: ItemOk(i)) && G.RESERVED_WORDS <= names
    ensures Known(PList(PItems(items)), names) <==> forall i <- items :: ItemKnown(i, names)
  {
    ListVocabulary(PItems(items), names);
    forall k | 0 <= k < |items| ensures Known(PItems(items)[k], names) <==> ItemKnown(items[k], names) {
      ItemVocabulary(items[k], names);
    }
    assert forall k :: 0 <= k < |items| ==> PItems(items)[k] in PItems(items) && items[k] in items;
  }

  lemma {:induction false} ExprsVocabulary(es: seq<Expr>, names: set<string>)
    requires (forall e <- es :: ExprOk(e)) && G.RESERVED_WORDS <= names
    ensures Known(PList(PExprs(es)), names) <==> forall e <- es :: ExprKnown(e, names)
  {
    ListVocabulary(PExprs(es), names);
    forall k | 0 <= k < |es| ensures Known(PExprs(es)[k], names) <==> ExprKnown(es[k], names) {
      ExprVocabulary(es[k], names);
    }
    assert forall k :: 0 <= k < |es| ==> PExprs(es)[k] in PExprs(es) && es[k] in es;
  }

  lemma {:induction false} KeysVocabulary(ks: seq<OrderKey>, names: set<string>)
    requires (forall k <- ks :: ExprOk(k.expr)) && G.RESERVED_WORDS <= names
    ensures Known(PList(PKeys(ks)), names) <==> forall k <- ks :: ExprKnown(k.expr, names)
  {
    ListVocabulary(PKeys(ks), names);
    forall k | 0 <= k < |ks| ensures Known(PKeys(ks)[k], names) <==> ExprKnown(ks[k].expr, names) {
      KeyVocabulary(ks[k], names);
    }
    assert forall k :: 0 <= k < |ks| ==> PKeys(ks)[k] in PKeys(ks) && ks[k] in ks;
  }

  lemma {:induction false} KindKnown(k: JoinKind, names: set<string>)
    requires G.RESERVED_WORDS <= names
    ensures Known(PKind(k), names)
  {
    StructureKnown("JOIN", names);
    StructureKnown("INNER", names);
    StructureKnown("LEFT", names);
    assert Word("JOIN") in [Word("JOIN")] && Word("INNER") in [Word("INNER")] && Word("LEFT") in [Word("LEFT")];
  }

  lemma {:induction false} JoinVocabulary(j: Join, names: set<string>)
    requires TableOk(j.table) && CondOk(j.on) && G.RESERVED_WORDS <= names
    ensures Known(PJoin(j), names) <==> TableKnown(j.table, names) && CondKnown(j.on, names)
  {
    KindKnown(j.kind, names);
    TableVocabulary(j.table, names);
    CondVocabulary(j.on, names);
    StructureKnown("ON", names);
    KnownSep(PTable(j.table), [SP, Word("ON"), SP], PCond(j.on), names);
    KnownConcat(PKind(j.kind), JoinBody(j), names);
  }

  lemma {:induction false} JoinsVocabulary(js: seq<Join>, names: set<string>)
    requires (forall j <- js :: TableOk(j.table) && CondOk(j.on)) && G.RESERVED_WORDS <= names
    ensures Known(PJoins(js), names)
       <==> forall j <- js :: TableKnown(j.table, names) && CondKnown(j.on, names)
  {
    if js != [] {
      var j := js[0];
      assert j in js;
      assert forall k <- js[1..] :: k in js;
      JoinsVocabulary(js[1..], names);
      JoinVocabulary(j, names);
      KnownSingle(SP, names);
      KnownSep([SP], PJoin(j), PJoins(js[1..]), names);
      assert js == [j] + js[1..];
    }
  }

  lemma {:induction false} ByKnown(w: string, body: seq<Token>, names: set<string>)
    requires w == "GROUP" || w == "ORDER"
    requires G.RESERVED_WORDS <= names
    ensures Known([SP, Word(w), SP, Word("BY"), SP] + body, names) <==> Known(body, names)
  {
    StructureKnown(w, names);
    StructureKnown("BY", names);
    KnownConcat([SP, Word(w), SP], [Word("BY"), SP], names);
    KnownConcat([Word("BY")], [SP], names);
    KnownSingle(SP, names);
    assert [Word("BY")] + [SP] == [Word("BY"), SP];
    assert [SP, Word(w), SP] + [Word("BY"), SP] == [SP, Word(w), SP, Word("BY"), SP];
    KnownConcat([SP, Word(w), SP, Word("BY"), SP], body, names);
  }

  lemma {:induction false} TailVocabulary(q: Query, names: set<string>)
    requires WellFormed(q) && G.RESERVED_WORDS <= names
    ensures Known(PWhere(q.where), names) <==> (q.where.Some? ==> CondKnown(q.where.value, names))
    ensures Known(PGroupBy(q.groupBy), names) <==> forall e <- q.groupBy :: ExprKnown(e, names)
    ensures Known(PHaving(q.having), names) <==> (q.having.Some? ==> CondKnown(q.having.value, names))
    ensures Known(POrderBy(q.orderBy), names) <==> forall k <- q.orderBy :: ExprKnown(k.expr, names)
  {
    StructureKnown("WHERE", names);
    StructureKnown("HAVING", names);
    if q.where.Some? {
      CondVocabulary(q.where.value, names);
      KnownConcat([SP, Word("WHERE"), SP], PCond(q.where.value), names);
    }
    if q.having.Some? {
      CondVocabulary(q.having.value, names);
      KnownConcat([SP, Word("HAVING"), SP], PCond(q.having.value), names);
    }
    ExprsVocabulary(q.groupBy, names);
    KeysVocabulary(q.orderBy, names);
    ByKnown("GROUP", PList(PExprs(q.groupBy)), names);
    ByKnown("ORDER", PList(PKeys(q.orderBy)), names);
  }

  lemma {:induction false} FrontVocabulary(q: Query, names: set<string>)
    requires WellFormed(q) && G.RESERVED_WORDS <= names
    ensures Known(PUpToFrom(q), names) <==> forall i <- q.items :: ItemKnown(i, names)
  {
    StructureKnown("SELECT", names);
    StructureKnown("TOP", names);
    NumberKnown(q.top, names);
    ItemsVocabulary(q.items, names);
    KnownSingle(SP, names);
    assert Word("SELECT") in [Word("SELECT")] && Word("TOP") in [Word("TOP")];
    assert Word(Decimal(q.top)) in [Word(Decimal(q.top))] && SP in [SP];
    assert Known(PHead(q), names);
    KnownConcat(PList(PItems(q.items)), [SP], names);
    KnownConcat(PHead(q), PList(PItems(q.items)) + [SP], names);
  }

  lemma {:induction false} FromVocabulary(q: Query, names: set<string>)
    requires WellFormed(q) && G.RESERVED_WORDS <= names
    ensures Known(PFrom(q), names) <==>
      && TableKnown(q.from, names)
      && forall j <- q.joins :: TableKnown(j.table, names) && CondKnown(j.on, names)
  {
    StructureKnown("FROM", names);
    TableVocabulary(q.from, names);
    JoinsVocabulary(q.joins, names);
    KnownConcat([Word("FROM")], [SP], names);
    KnownSingle(SP, names);
    assert [Word("FROM")] + [SP] == [Word("FROM"), SP];
    KnownSep([Word("FROM"), SP], PTable(q.from), PJoins(q.joins), names);
  }

  lemma {:induction false} KnownMeans(ts: seq<Token>, names: set<string>)
    ensures Known(ts, names) <==> StarFree(ts) && G.IdentifiersApproved(ts, names)
  {
  }

  /** Rules 7 and 11 together: a printed statement keeps them iff its names are known. */
  lemma {:induction false} StatementVocabulary(q: Query, names: set<string>)
    requires WellFormed(q) && G.RESERVED_WORDS <= names
    ensures StarFree(Print(q)) && G.IdentifiersApproved(Print(q), names) <==> QueryKnown(q, names)
  {
    PrintFragment(q);
    FrontVocabulary(q, names);
    FromVocabulary(q, names);
    TailVocabulary(q, names);
    KnownSep(PUpToFrom(q), PFrom(q), PTail(q), names);
    KnownMeans(Print(q), names);
  }
}
