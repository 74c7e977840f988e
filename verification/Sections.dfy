/** The clauses of a printed statement: how they fit together, and which
    structural keywords each one can contain. */
module Sections {
  import opened Text
  import opened SqlAst
  import opened Printed
  import opened Scanning
  import G = Guardrail

  /** Text that can follow a fragment: nothing, or a gap and more fragments. */
  predicate Suffix(ts: seq<Token>) {
    ts != [] ==>
      && ts[0].Gap? && !ts[|ts| - 1].Gap?
      && Separated(ts) && (forall t <- ts :: PunctOk(t)) && DashSpaced(ts)
  }

  lemma {:induction false} SuffixOf(sep: seq<Token>, frag: seq<Token>)
    requires Separator(sep) && sep[0].Gap? && Fragment(frag)
    ensures Suffix(sep + frag)
  {
    SeparatedConcat(sep, frag);
  }

  lemma {:induction false} SuffixConcat(a: seq<Token>, b: seq<Token>)
    requires Suffix(a) && Suffix(b)
    ensures Suffix(a + b)
  {
    if a != [] && b != [] { SeparatedConcat(a, b); }
    else { assert a == [] ==> a + b == b; assert b == [] ==> a + b == a; }
  }

  lemma {:induction false} FragmentSuffix(a: seq<Token>, s: seq<Token>)
    requires Fragment(a) && Suffix(s)
    ensures Fragment(a + s)
  {
    if s != [] { SeparatedConcat(a, s); } else { assert a + s == a; }
  }

  /** The structural keywords of `ts` are among `keywords`. */
  predicate Only(ts: seq<Token>, keywords: set<string>) {
    forall t <- ts :: G.Stops(t, STRUCTURE) ==> G.Stops(t, keywords)
  }

  lemma {:induction false} OnlyConcat(a: seq<Token>, b: seq<Token>, k: set<string>, l: set<string>)
    requires Only(a, k) && Only(b, l)
    ensures Only(a + b, k + l)
  {
  }

  lemma {:induction false} OnlyAvoids(ts: seq<Token>, keywords: set<string>, avoided: set<string>)
    requires Only(ts, keywords)
    requires avoided <= STRUCTURE && avoided !! keywords
    ensures Without(ts, avoided)
  {
  }

  lemma {:induction false} PairSeparator(v: string, w: string)
    requires TokenOk(Word(v)) && TokenOk(Word(w))
    ensures Separator([SP, Word(v), SP, Word(w), SP])
  {
  }

  // ------------------------------------------------------------------ lists

  lemma {:induction false} ListFragment(xs: seq<seq<Token>>, keywords: set<string>)
    requires xs != []
    requires forall x <- xs :: Fragment(x) && Only(x, keywords)
    ensures Fragment(PList(xs)) && Only(PList(xs), keywords)
  {
    if |xs| > 1 {
      assert xs[0] in xs;
      assert forall x <- xs[1..] :: x in xs;
      ListFragment(xs[1..], keywords);
      SymbolSeparator(',');
      FragmentSep(xs[0], [Punct(','), SP], PList(xs[1..]));
      OnlyConcat(xs[0], [Punct(','), SP], keywords, {});
      OnlyConcat(xs[0] + [Punct(','), SP], PList(xs[1..]), keywords + {}, keywords);
      assert keywords + {} + keywords == keywords;
    } else {
      assert xs[0] in xs;
    }
  }

  lemma {:induction false} Named(a: seq<Token>, w: string, n: Name)
    requires Inner(a) && NameOk(n) && w == "AS"
    ensures Fragment(a + [SP, Word(w), SP] + PName(n))
    ensures Only(a + [SP, Word(w), SP] + PName(n), {w})
  {
    NameInner(n);
    assert Upper(w) == w;
    FragmentSep(a, [SP, Word(w), SP], PName(n));
  }

  lemma {:induction false} ItemSection(i: Item)
    requires ItemOk(i)
    ensures Fragment(PItem(i)) && Only(PItem(i), {"AS"})
  {
    ExprInner(i.expr);
    if i.alias.Some? {
      Named(PExpr(i.expr), "AS", i.alias.value);
      assert PExpr(i.expr) + ([SP, Word("AS"), SP] + PName(i.alias.value))
          == PExpr(i.expr) + [SP, Word("AS"), SP] + PName(i.alias.value);
    } else {
      assert PItem(i) == PExpr(i.expr);
    }
  }

  lemma {:induction false} DirectionWord(w: string)
    requires w == "ASC" || w == "DESC"
    ensures Suffix([SP, Word(w)]) && Only([SP, Word(w)], {"ASC", "DESC"})
  {
    assert Upper(w) == w;
    SuffixOf([SP], [Word(w)]);
    assert [SP] + [Word(w)] == [SP, Word(w)];
  }

  lemma {:induction false} KeySection(k: OrderKey)
    requires ExprOk(k.expr)
    ensures Fragment(PKey(k)) && Only(PKey(k), {"ASC", "DESC"})
  {
    ExprInner(k.expr);
    if k.direction.Some? {
      var w := if k.direction.value.Asc? then "ASC" else "DESC";
      DirectionWord(w);
      FragmentSuffix(PExpr(k.expr), [SP, Word(w)]);
      OnlyConcat(PExpr(k.expr), [SP, Word(w)], {}, {"ASC", "DESC"});
      assert {} + {"ASC", "DESC"} == {"ASC", "DESC"};
    } else {
      assert PKey(k) == PExpr(k.expr);
    }
  }

  lemma {:induction false} ItemsSection(items: seq<Item>)
    requires items != [] && forall i <- items :: ItemOk(i)
    ensures Fragment(PList(PItems(items))) && Only(PList(PItems(items)), {"AS"})
  {
    forall x | x in PItems(items) ensures Fragment(x) && Only(x, {"AS"}) {
      var i :| 0 <= i < |items| && x == PItem(items[i]);
      ItemSection(items[i]);
    }
    ListFragment(PItems(items), {"AS"});
  }

  lemma {:induction false} ExprsSection(es: seq<Expr>)
    requires es != [] && forall e <- es :: ExprOk(e)
    ensures Fragment(PList(PExprs(es))) && Only(PList(PExprs(es)), {})
  {
    forall x | x in PExprs(es) ensures Fragment(x) && Only(x, {}) {
      var i :| 0 <= i < |es| && x == PExpr(es[i]);
      ExprInner(es[i]);
    }
    ListFragment(PExprs(es), {});
  }

  lemma {:induction false} KeysSection(ks: seq<OrderKey>)
    requires ks != [] && forall k <- ks :: ExprOk(k.expr)
    ensures Fragment(PList(PKeys(ks))) && Only(PList(PKeys(ks)), {"ASC", "DESC"})
  {
    forall x | x in PKeys(ks) ensures Fragment(x) && Only(x, {"ASC", "DESC"}) {
      var i :| 0 <= i < |ks| && x == PKey(ks[i]);
      KeySection(ks[i]);
    }
    ListFragment(PKeys(ks), {"ASC", "DESC"});
  }

  // ---------------------------------------------------------------- clauses

  lemma {:induction false} QualifiedInner(t: Table)
    requires TableOk(t)
    ensures Inner((if t.schema.Some? then PName(t.schema.value) + [Punct('.')] else []) + PName(t.name))
  {
    NameInner(t.name);
    if t.schema.Some? {
      NameInner(t.schema.value);
      SymbolSeparator('.');
      InnerSep(PName(t.schema.value), [Punct('.')], PName(t.name));
    } else {
      assert [] + PName(t.name) == PName(t.name);
    }
  }

  lemma {:induction false} TableSection(t: Table)
    requires TableOk(t)
    ensures Fragment(PTable(t)) && Only(PTable(t), {"AS"})
  {
    QualifiedInner(t);
    Named((if t.schema.Some? then PName(t.schema.value) + [Punct('.')] else []) + PName(t.name), "AS", t.alias);
  }

  const JOIN_WORDS := {"JOIN", "INNER", "LEFT"} + {"AS", "ON"}

  lemma {:induction false} JoinCaps()
    ensures Upper("JOIN") == "JOIN" && Upper("INNER") == "INNER" && Upper("LEFT") == "LEFT"
    ensures TokenOk(Word("JOIN")) && TokenOk(Word("INNER")) && TokenOk(Word("LEFT"))
  {
  }

  lemma {:induction false} KindSeparator(k: JoinKind)
    ensures Separator([SP] + PKind(k)) && Only([SP] + PKind(k), {"JOIN", "INNER", "LEFT"})
  {
    var ks := {"JOIN", "INNER", "LEFT"};
    JoinCaps();
    match k
    case BareJoin =>
      assert [SP] + PKind(k) == [SP, Word("JOIN"), SP];
    case InnerJoin =>
      PairSeparator("INNER", "JOIN");
      assert [SP] + PKind(k) == [SP, Word("INNER"), SP, Word("JOIN"), SP];
    case LeftJoin =>
      PairSeparator("LEFT", "JOIN");
      assert [SP] + PKind(k) == [SP, Word("LEFT"), SP, Word("JOIN"), SP];
  }

  lemma {:induction false} OnWord()
    ensures Separator([SP, Word("ON"), SP]) && Only([SP, Word("ON"), SP], {"ON"})
  {
    assert Upper("ON") == "ON";
  }

  lemma {:induction false} JoinBodySection(j: Join)
    requires TableOk(j.table) && CondOk(j.on)
    ensures Fragment(JoinBody(j)) && Only(JoinBody(j), {"AS", "ON"})
  {
    TableSection(j.table);
    CondInner(j.on);
    OnWord();
    FragmentSep(PTable(j.table), [SP, Word("ON"), SP], PCond(j.on));
    OnlyConcat(PTable(j.table), [SP, Word("ON"), SP], {"AS"}, {"ON"});
    OnlyConcat(PTable(j.table) + [SP, Word("ON"), SP], PCond(j.on), {"AS"} + {"ON"}, {});
    assert {"AS"} + {"ON"} + {} == {"AS", "ON"};
  }

  lemma {:induction false} SuffixAfter(s: seq<Token>, kind: seq<Token>, body: seq<Token>)
    requires s == [SP] && Separator(s + kind) && Fragment(body)
    ensures Suffix(s + (kind + body))
  {
    assert s + (kind + body) == (s + kind) + body;
    SuffixOf(s + kind, body);
  }

  lemma {:induction false} JoinSection(j: Join)
    requires TableOk(j.table) && CondOk(j.on)
    ensures Suffix([SP] + PJoin(j)) && Only([SP] + PJoin(j), JOIN_WORDS)
  {
    KindSeparator(j.kind);
    JoinBodySection(j);
    SuffixAfter([SP], PKind(j.kind), JoinBody(j));
  }

  lemma {:induction false} JoinsSection(js: seq<Join>)
    requires forall j <- js :: TableOk(j.table) && CondOk(j.on)
    ensures Suffix(PJoins(js)) && Only(PJoins(js), JOIN_WORDS)
  {
    if js != [] {
      assert js[0] in js;
      assert forall j <- js[1..] :: j in js;
      JoinSection(js[0]);
      JoinsSection(js[1..]);
      SuffixConcat([SP] + PJoin(js[0]), PJoins(js[1..]));
      OnlyConcat([SP] + PJoin(js[0]), PJoins(js[1..]), JOIN_WORDS, JOIN_WORDS);
      assert JOIN_WORDS + JOIN_WORDS == JOIN_WORDS;
    }
  }

  lemma {:induction false} CondCaps(w: string)
    requires w == "WHERE" || w == "HAVING"
    ensures Upper(w) == w && TokenOk(Word(w))
  {
  }

  lemma {:induction false} CondClauseText(w: string, c: Cond)
    requires Upper(w) == w && TokenOk(Word(w)) && CondOk(c)
    ensures Suffix([SP, Word(w), SP] + PCond(c)) && Only([SP, Word(w), SP] + PCond(c), {w})
  {
    CondInner(c);
    SuffixOf([SP, Word(w), SP], PCond(c));
    OnlyConcat([SP, Word(w), SP], PCond(c), {w}, {});
    assert {w} + {} == {w};
  }

  lemma {:induction false} CondClause(w: string, c: Option<Cond>)
    requires w == "WHERE" || w == "HAVING"
    requires c.Some? ==> CondOk(c.value)
    ensures c.Some? ==> Suffix([SP, Word(w), SP] + PCond(c.value)) && Only([SP, Word(w), SP] + PCond(c.value), {w})
  {
    CondCaps(w);
    if c.Some? { CondClauseText(w, c.value); }
  }

  lemma {:induction false} ByCaps(w: string)
    requires w == "GROUP" || w == "ORDER"
    ensures Upper(w) == w && Upper("BY") == "BY" && TokenOk(Word(w)) && TokenOk(Word("BY"))
  {
  }

  lemma {:induction false} ByClause(w: string, body: seq<Token>, keywords: set<string>)
    requires w == "GROUP" || w == "ORDER"
    requires Fragment(body) && Only(body, keywords)
    ensures Suffix([SP, Word(w), SP, Word("BY"), SP] + body)
    ensures Only([SP, Word(w), SP, Word("BY"), SP] + body, {w, "BY"} + keywords)
  {
    ByCaps(w);
    PairSeparator(w, "BY");
    SuffixOf([SP, Word(w), SP, Word("BY"), SP], body);
    OnlyConcat([SP, Word(w), SP, Word("BY"), SP], body, {w, "BY"}, keywords);
  }

  lemma {:induction false} TailSections(q: Query)
    requires WellFormed(q)
    ensures Suffix(PWhere(q.where)) && Only(PWhere(q.where), {"WHERE"})
    ensures Suffix(PGroupBy(q.groupBy)) && Only(PGroupBy(q.groupBy), {"GROUP", "BY"})
    ensures Suffix(PHaving(q.having)) && Only(PHaving(q.having), {"HAVING"})
    ensures Suffix(POrderBy(q.orderBy)) && Only(POrderBy(q.orderBy), {"ORDER", "BY", "ASC", "DESC"})
  {
    CondClause("WHERE", q.where);
    CondClause("HAVING", q.having);
    if q.groupBy != [] {
      ExprsSection(q.groupBy);
      ByClause("GROUP", PList(PExprs(q.groupBy)), {});
      assert {"GROUP", "BY"} + {} == {"GROUP", "BY"};
    }
    if q.orderBy != [] {
      KeysSection(q.orderBy);
      ByClause("ORDER", PList(PKeys(q.orderBy)), {"ASC", "DESC"});
      assert {"ORDER", "BY"} + {"ASC", "DESC"} == {"ORDER", "BY", "ASC", "DESC"};
    }
  }

  const TAIL_WORDS := {"WHERE"} + {"GROUP", "BY"} + {"HAVING"} + {"ORDER", "BY", "ASC", "DESC"}

  lemma {:induction false} TailOnly(q: Query)
    requires WellFormed(q)
    ensures Only(PTail(q), TAIL_WORDS)
  {
    TailSections(q);
    var a, b, c, d := PWhere(q.where), PGroupBy(q.groupBy), PHaving(q.having), POrderBy(q.orderBy);
    OnlyConcat(a, b, {"WHERE"}, {"GROUP", "BY"});
    OnlyConcat(a + b, c, {"WHERE"} + {"GROUP", "BY"}, {"HAVING"});
    OnlyConcat(a + b + c, d, {"WHERE"} + {"GROUP", "BY"} + {"HAVING"}, {"ORDER", "BY", "ASC", "DESC"});
  }

  lemma {:induction false} OnlyLeading(w: string)
    requires Upper(w) == w
    ensures Only([Word(w), SP], {w})
  {
  }

  lemma {:induction false} FromWord()
    ensures Fragment([Word("FROM")]) && Only([Word("FROM"), SP], {"FROM"})
  {
    WordFragment("FROM");
    OnlyLeading("FROM");
  }

  lemma {:induction false} FromTable(t: Table)
    requires TableOk(t)
    ensures Fragment([Word("FROM"), SP] + PTable(t)) && Only([Word("FROM"), SP] + PTable(t), {"FROM"} + {"AS"})
  {
    TableSection(t);
    FromWord();
    FragmentSep([Word("FROM")], [SP], PTable(t));
    assert [Word("FROM"), SP] + PTable(t) == [Word("FROM")] + [SP] + PTable(t);
    OnlyConcat([Word("FROM"), SP], PTable(t), {"FROM"}, {"AS"});
  }

  lemma {:induction false} FromSection(q: Query)
    requires WellFormed(q)
    ensures Fragment(PFrom(q)) && Only(PFrom(q), {"FROM"} + JOIN_WORDS)
  {
    FromTable(q.from);
    JoinsSection(q.joins);
    FragmentSuffix([Word("FROM"), SP] + PTable(q.from), PJoins(q.joins));
    OnlyConcat([Word("FROM"), SP] + PTable(q.from), PJoins(q.joins), {"FROM"} + {"AS"}, JOIN_WORDS);
    assert {"FROM"} + {"AS"} + JOIN_WORDS == {"FROM"} + JOIN_WORDS;
  }

  function HeadCore(q: Query): seq<Token> {
    [Word("SELECT"), SP, Word("TOP"), SP, Punct('('), Word(Decimal(q.top)), Punct(')')]
  }

  lemma {:induction false} HeadCaps()
    ensures Upper("SELECT") == "SELECT" && Upper("TOP") == "TOP"
    ensures TokenOk(Word("SELECT")) && TokenOk(Word("TOP"))
  {
  }

  lemma {:induction false} HeadStartOnly()
    ensures Only([Word("SELECT"), SP, Word("TOP"), SP, Punct('(')], {"SELECT", "TOP"})
  {
    HeadCaps();
  }

  lemma {:induction false} WordFragment(w: string)
    requires TokenOk(Word(w))
    ensures Fragment([Word(w)])
  {
  }

  lemma {:induction false} HeadStart()
    ensures Fragment([Word("SELECT"), SP, Word("TOP"), SP, Punct('(')])
  {
    HeadCaps();
    WordFragment("SELECT");
    WordFragment("TOP");
    var a, b, c := [Word("SELECT")], [Word("TOP")], [Punct('(')];
    FragmentSep(a, [SP], b);
    FragmentSep(a + [SP] + b, [SP], c);
    assert a + [SP] + b + [SP] + c == [Word("SELECT"), SP, Word("TOP"), SP, Punct('(')];
  }

  lemma {:induction false} HeadSection(q: Query)
    ensures Fragment(HeadCore(q)) && Only(HeadCore(q), {"SELECT", "TOP"})
    ensures PHead(q) == HeadCore(q) + [SP]
  {
    var a, d := [Word("SELECT"), SP, Word("TOP"), SP, Punct('(')], [Word(Decimal(q.top))];
    HeadStart();
    HeadStartOnly();
    NumberInner(q.top);
    FragmentAppend(a, d);
    FragmentAppend(a + d, [Punct(')')]);
    OnlyConcat(a, d, {"SELECT", "TOP"}, {});
    OnlyConcat(a + d, [Punct(')')], {"SELECT", "TOP"} + {}, {});
    assert {"SELECT", "TOP"} + {} + {} == {"SELECT", "TOP"};
    assert HeadCore(q) == a + d + [Punct(')')];
  }

  /** Everything up to FROM. */
  function PUpToFrom(q: Query): seq<Token> { PHead(q) + (PList(PItems(q.items)) + [SP]) }

  lemma {:induction false} FrontSection(q: Query)
    requires WellFormed(q)
    ensures Only(PUpToFrom(q), {"SELECT", "TOP", "AS"})
    ensures Fragment(HeadCore(q) + [SP] + PList(PItems(q.items)))
    ensures PUpToFrom(q) == HeadCore(q) + [SP] + PList(PItems(q.items)) + [SP]
  {
    HeadSection(q);
    ItemsSection(q.items);
    SymbolSeparator(',');
    FragmentSep(HeadCore(q), [SP], PList(PItems(q.items)));
    assert Only([SP], {});
    OnlyConcat(HeadCore(q), [SP], {"SELECT", "TOP"}, {});
    OnlyConcat(PList(PItems(q.items)), [SP], {"AS"}, {});
    OnlyConcat(PHead(q), PList(PItems(q.items)) + [SP], {"SELECT", "TOP"} + {}, {"AS"} + {});
    assert {"SELECT", "TOP"} + {} + ({"AS"} + {}) == {"SELECT", "TOP", "AS"};
  }

  /** A printed statement is one fragment, hence the splitting of its own text. */
  lemma {:induction false} PrintFragment(q: Query)
    requires WellFormed(q)
    ensures Fragment(Print(q))
    ensures Print(q) == PUpToFrom(q) + PFrom(q) + PTail(q)
  {
    FrontSection(q);
    FromSection(q);
    TailSections(q);
    SymbolSeparator(',');
    var front := HeadCore(q) + [SP] + PList(PItems(q.items));
    FragmentSep(front, [SP], PFrom(q));
    SuffixConcat(PWhere(q.where), PGroupBy(q.groupBy));
    SuffixConcat(PWhere(q.where) + PGroupBy(q.groupBy), PHaving(q.having));
    SuffixConcat(PWhere(q.where) + PGroupBy(q.groupBy) + PHaving(q.having), POrderBy(q.orderBy));
    FragmentSuffix(front + [SP] + PFrom(q), PTail(q));
    assert Print(q) == front + [SP] + PFrom(q) + PTail(q);
  }
}
