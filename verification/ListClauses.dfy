/** The two printed lists the guardrail takes apart: GROUP BY keys and SELECT items. */
module ListClauses {
  import opened Text
  import opened SqlAst
  import opened Printed
  import opened Scanning
  import opened Sections
  import opened Decoding
  import opened Clauses
  import opened Extraction
  import Tables
  import C = CommaSplit
  import G = Guardrail

  // ------------------------------------------------------------- splitting

  /** Text with balanced parentheses and no comma. */
  predicate Flat(ts: seq<Token>) { C.Net(Unlex(ts)) == 0 && ',' !in Unlex(ts) }

  lemma {:induction false} NetConcat(a: string, b: string)
    ensures C.Net(a + b) == C.Net(a) + C.Net(b)
  {
    if a == "" { assert a + b == b; }
    else { NetConcat(a[1..], b); assert (a + b)[1..] == a[1..] + b; }
  }

  lemma {:induction false} NetPlain(s: string)
    requires '(' !in s && ')' !in s
    ensures C.Net(s) == 0
  {
    if s != "" {
      assert s[0] in s;
      assert forall c <- s[1..] :: c in s;
      NetPlain(s[1..]);
    }
  }

  lemma {:induction false} NoCommas(s: string, depth: int)
    requires ',' !in s
    ensures C.NoTopComma(s, depth)
    decreases s
  {
    if s != "" {
      assert s[0] in s;
      assert forall c <- s[1..] :: c in s;
      NoCommas(s[1..], depth + C.Step(s[0]));
    }
  }

  lemma {:induction false} FlatConcat(a: seq<Token>, b: seq<Token>)
    requires Flat(a) && Flat(b)
    ensures Flat(a + b)
  {
    UnlexConcat(a, b);
    NetConcat(Unlex(a), Unlex(b));
  }

  lemma {:induction false} FlatSep(a: seq<Token>, m: seq<Token>, b: seq<Token>)
    requires Flat(a) && Flat(m) && Flat(b)
    ensures Flat(a + m + b)
  {
    FlatConcat(a, m);
    FlatConcat(a + m, b);
  }

  lemma {:induction false} FlatWord(w: string)
    requires forall c <- w :: IsWordChar(c)
    ensures Flat([Word(w)])
  {
    UnlexOne(Word(w));
    NetPlain(w);
  }

  lemma {:induction false} FlatSymbol(c: char)
    requires c != '(' && c != ')' && c != ','
    ensures Flat([Punct(c)]) && Flat([SP, Punct(c), SP])
  {
    UnlexOne(Punct(c));
    NetPlain([c]);
    UnlexOne(SP);
    NetPlain(" ");
    FlatSep([SP], [Punct(c)], [SP]);
    assert [SP] + [Punct(c)] + [SP] == [SP, Punct(c), SP];
  }

  lemma {:induction false} FlatParens(a: seq<Token>)
    requires Flat(a)
    ensures Flat(Parens(a))
  {
    UnlexConcat([Punct('(')] + a, [Punct(')')]);
    UnlexConcat([Punct('(')], a);
    UnlexOne(Punct('('));
    UnlexOne(Punct(')'));
    NetConcat("(" + Unlex(a), ")");
    NetConcat("(", Unlex(a));
    assert "("[1..] == "" && ")"[1..] == "";
  }

  lemma {:induction false} FlatName(n: Name)
    requires NameOk(n)
    ensures Flat(PName(n))
  {
    FlatWord(n.text);
    FlatSymbol('[');
    FlatSymbol(']');
    FlatSep([Punct('[')], [Word(n.text)], [Punct(']')]);
    assert [Punct('[')] + [Word(n.text)] + [Punct(']')] == [Punct('['), Word(n.text), Punct(']')];
  }

  lemma {:induction false} FlatExpr(e: Expr)
    requires ExprOk(e)
    ensures Flat(PExpr(e))
    decreases e, 0
  {
    match e
    case Column(None, c) => FlatName(c);
    case Column(Some(t), c) => FlatName(t); FlatName(c); FlatSymbol('.'); FlatSep(PName(t), [Punct('.')], PName(c));
    case Number(n) => DecimalReads(n); FlatWord(Decimal(n));
    case Call(f, a) =>
      FlatExpr(a);
      FlatParens(PExpr(a));
      FlatWord(FnText(f));
      FlatConcat([Word(FnText(f))], Parens(PExpr(a)));
    case Arith(op, l, r) =>
      FlatOperand(l);
      FlatOperand(r);
      FlatSymbol(ArithChar(op));
      FlatSep(POperand(l), [SP, Punct(ArithChar(op)), SP], POperand(r));
  }

  lemma {:induction false} FlatOperand(e: Expr)
    requires ExprOk(e)
    ensures Flat(POperand(e))
    decreases e, 1
  {
    FlatExpr(e);
    FlatParens(PExpr(e));
  }

  lemma {:induction false} FlatItem(x: Item)
    requires ItemOk(x)
    ensures Flat(PItem(x))
  {
    FlatExpr(x.expr);
    if x.alias.Some? {
      UnlexOne(SP);
      NetPlain(" ");
      FlatWord("AS");
      FlatSep([SP], [Word("AS")], [SP]);
      assert [SP] + [Word("AS")] + [SP] == [SP, Word("AS"), SP];
      FlatName(x.alias.value);
      FlatConcat([SP, Word("AS"), SP], PName(x.alias.value));
      FlatConcat(PExpr(x.expr), [SP, Word("AS"), SP] + PName(x.alias.value));
    } else {
      assert PItem(x) == PExpr(x.expr);
    }
  }

  function Texts(xs: seq<seq<Token>>): (r: seq<string>)
    ensures |r| == |xs| && forall k :: 0 <= k < |xs| ==> r[k] == Unlex(xs[k])
  {
    seq(|xs|, k requires 0 <= k < |xs| => Unlex(xs[k]))
  }

  lemma {:induction false} CommaText(x: seq<Token>, rest: seq<Token>)
    ensures Unlex(x + [Punct(','), SP] + rest) == Unlex(x) + "," + " " + Unlex(rest)
  {
    UnlexConcat(x + [Punct(','), SP], rest);
    UnlexConcat(x, [Punct(','), SP]);
    UnlexConcat([Punct(',')], [SP]);
    UnlexOne(Punct(','));
    UnlexOne(SP);
    assert [Punct(',')] + [SP] == [Punct(','), SP];
    assert Unlex(x) + ("," + " ") == Unlex(x) + "," + " ";
  }

  lemma {:induction false} ListText(xs: seq<seq<Token>>)
    requires xs != []
    ensures Unlex(PList(xs)) == C.Join(Texts(xs), " ")
  {
    if |xs| > 1 {
      ListText(xs[1..]);
      assert Texts(xs)[1..] == Texts(xs[1..]);
      CommaText(xs[0], PList(xs[1..]));
    }
  }

  /** The comma splitter takes a printed list apart into the printed pieces. */
  lemma {:induction false} ListSplit(xs: seq<seq<Token>>)
    requires xs != [] && forall x <- xs :: Fragment(x) && Flat(x)
    ensures C.Split(Unlex(PList(xs))) == Texts(xs)
  {
    forall s | s in Texts(xs) ensures C.ListItem(s) {
      var k :| 0 <= k < |xs| && s == Unlex(xs[k]);
      assert xs[k] in xs;
      FragmentTrimmed(xs[k]);
      NoCommas(s, 0);
    }
    ListText(xs);
    C.SplitRoundTrip(Texts(xs), " ");
  }

  // --------------------------------------------------------------- GROUP BY

  lemma {:induction false} LexDotted(a: string, b: string)
    requires WordText(a) && WordText(b)
    ensures Lex(a + ['.'] + b) == [Word(a), Punct('.'), Word(b)]
  {
    var ts := [Word(a), Punct('.'), Word(b)];
    UnlexConcat([Word(a)] + [Punct('.')], [Word(b)]);
    UnlexConcat([Word(a)], [Punct('.')]);
    UnlexOne(Word(a)); UnlexOne(Punct('.')); UnlexOne(Word(b));
    assert ts == [Word(a)] + [Punct('.')] + [Word(b)];
    LexUnlex(ts);
  }

  lemma {:induction false} DottedSpells(s: string)
    requires G.QualifiedColumn(s).Some?
    ensures
      var (a, b) := G.QualifiedColumn(s).value;
      WordText(a) && WordText(b) && s == a + ['.'] + b
  {
    var ts := Lex(s);
    LexSpells(s);
    assert TokenOk(ts[0]) && TokenOk(ts[2]);
    UnlexConcat([ts[0]] + [ts[1]], [ts[2]]);
    UnlexConcat([ts[0]], [ts[1]]);
    UnlexOne(ts[0]); UnlexOne(ts[1]); UnlexOne(ts[2]);
    assert ts == [ts[0]] + [ts[1]] + [ts[2]];
  }

  lemma {:induction false} DottedQualifies(t: Name, c: Name)
    requires NameOk(t) && NameOk(c)
    ensures G.QualifiedColumn(t.Key() + ['.'] + c.Key()) == Some((t.Key(), c.Key()))
  {
    KeyWord(t);
    KeyWord(c);
    LexDotted(t.Key(), c.Key());
    LexSpells(t.Key() + ['.'] + c.Key());
    assert Upper(t.Key() + ['.'] + c.Key()) == t.Key() + ['.'] + c.Key();
    assert IsIdentStart(t.Key()[0]) && IsIdentStart(c.Key()[0]);
  }

  /** Normalised text reads as a qualified column exactly when it was printed from one. */
  lemma {:induction false} QualifiedDecodes(e: Expr)
    requires ExprOk(e)
    ensures G.QualifiedColumn(NExpr(e))
         == if e.Column? && e.table.Some? then Some((e.table.value.Key(), e.column.Key())) else None
  {
    if e.Column? && e.table.Some? {
      ColumnNorm(e.table.value, e.column);
      DottedQualifies(e.table.value, e.column);
    } else if G.QualifiedColumn(NExpr(e)).Some? {
      DottedSpells(NExpr(e));
      var (a, b) := G.QualifiedColumn(NExpr(e)).value;
      ColumnDecodes(e, a, b);
    }
  }

  function ColumnOf(e: Expr): string { if e.Column? then e.column.Key() else "" }

  predicate GroupKey(e: Expr, p: string) {
    && e.Column? && e.table.Some? && e.table.value.Key() == p
    && e.column.Key() in G.GROUP_BY_COLUMNS
  }

  /** The three group keys `p.ProductID`, `p.Name` and `p.SafetyStockLevel`, in any order. */
  predicate GroupKeys(es: seq<Expr>, p: string) {
    && |es| == 3
    && (forall e <- es :: GroupKey(e, p))
    && (forall a, b :: 0 <= a < b < |es| ==> ColumnOf(es[a]) != ColumnOf(es[b]))
  }

  lemma {:induction false} ExprText(e: Expr)
    requires ExprOk(e)
    ensures Normalize(Unlex(PExpr(e))) == NExpr(e)
    ensures Normalize(Unlex(PExpr(e) + [SP])) == NExpr(e)
  {
    ExprInner(e);
    NormalizeUnlex(PExpr(e));
    NormalizeUnlex(PExpr(e) + [SP]);
    NormTokensConcat(PExpr(e), [SP]);
    NormOne(SP);
  }

  lemma {:induction false} GroupKeyTest(e: Expr, p: string)
    requires ExprOk(e)
    ensures G.GroupKeyApproved(Unlex(PExpr(e)), p) <==> GroupKey(e, p)
    ensures GroupKey(e, p) ==> G.GroupColumn(Unlex(PExpr(e))) == ColumnOf(e)
  {
    ExprText(e);
    QualifiedDecodes(e);
  }

  lemma {:induction false} GroupKeyTests(es: seq<Expr>, p: string)
    requires forall e <- es :: ExprOk(e)
    ensures forall k :: 0 <= k < |es| ==>
      && (G.GroupKeyApproved(Texts(PExprs(es))[k], p) <==> GroupKey(es[k], p))
      && (GroupKey(es[k], p) ==> G.GroupColumn(Texts(PExprs(es))[k]) == ColumnOf(es[k]))
  {
    forall k | 0 <= k < |es|
      ensures G.GroupKeyApproved(Texts(PExprs(es))[k], p) <==> GroupKey(es[k], p)
      ensures GroupKey(es[k], p) ==> G.GroupColumn(Texts(PExprs(es))[k]) == ColumnOf(es[k])
    {
      assert es[k] in es;
      GroupKeyTest(es[k], p);
    }
  }

  lemma {:induction false} GroupKeysTest(es: seq<Expr>, p: string)
    requires forall e <- es :: ExprOk(e)
    ensures G.GroupApproved(Texts(PExprs(es)), p) <==> GroupKeys(es, p)
  {
    var items := Texts(PExprs(es));
    GroupKeyTests(es, p);
    assert |G.GROUP_BY_COLUMNS| == 3;
    if GroupKeys(es, p) {
      forall x | x in items ensures G.GroupKeyApproved(x, p) {
        var k :| 0 <= k < |es| && x == items[k];
        assert es[k] in es;
      }
    }
    if G.GroupApproved(items, p) {
      forall e | e in es ensures GroupKey(e, p) {
        var k :| 0 <= k < |es| && e == es[k];
        assert items[k] in items;
      }
    }
  }

  lemma {:induction false} ExprsSplit(es: seq<Expr>)
    requires es != [] && forall e <- es :: ExprOk(e)
    ensures C.Split(Unlex(PList(PExprs(es)))) == Texts(PExprs(es))
  {
    forall x | x in PExprs(es) ensures Fragment(x) && Flat(x) {
      var k :| 0 <= k < |es| && x == PExpr(es[k]);
      ExprInner(es[k]);
      FlatExpr(es[k]);
    }
    ListSplit(PExprs(es));
  }

  lemma {:induction false} GroupCut(before: seq<Token>, es: seq<Expr>, after: seq<Token>)
    requires es != [] && forall e <- es :: ExprOk(e)
    requires Without(before, {"GROUP"}) && Without(after, {"GROUP"})
    requires Bounded(after, G.CLAUSE_BOUNDARIES)
    ensures
      var ts := before + PGroupBy(es) + after;
      && G.CountPair(ts, "GROUP", "BY") == 1
      && G.ClauseText(G.AfterPair(ts, "GROUP", "BY").GetOr([])) == Unlex(PList(PExprs(es)))
  {
    var list := PList(PExprs(es));
    var rest := [SP] + list + after;
    assert Upper("GROUP") == "GROUP" && Upper("BY") == "BY";
    GroupAlgebra(before, list, after);
    AfterPairFound(before, "GROUP", "BY", rest);
    GroupListFree(es);
    ExprsSection(es);
    CutText(list, after, G.CLAUSE_BOUNDARIES);
    PairCounted(before, "GROUP", "BY", list + after);
    OnlyAvoids(list, {}, {"GROUP"});
    assert Upper("BY") != "GROUP";
    CountPairNone([SP, Word("BY"), SP] + (list + after), "GROUP", "BY");
  }

  lemma {:induction false} GroupAlgebra(before: seq<Token>, list: seq<Token>, after: seq<Token>)
    ensures before + ([SP, Word("GROUP"), SP, Word("BY"), SP] + list) + after
         == before + ([SP, Word("GROUP"), SP, Word("BY")] + ([SP] + list + after))
    ensures before + ([SP, Word("GROUP"), SP, Word("BY"), SP] + list) + after
         == before + ([SP, Word("GROUP"), SP, Word("BY"), SP] + (list + after))
  {
  }

  /** The GROUP BY check passes exactly for the three approved keys. */
  lemma {:induction false} GroupRule(q: Query, p: string)
    requires WellFormed(q)
    ensures G.GroupingApproved(Print(q), p) <==> GroupKeys(q.groupBy, p)
  {
    var before := PUpToFrom(q) + PFrom(q) + PWhere(q.where);
    var after := PHaving(q.having) + POrderBy(q.orderBy);
    PrintAtGroup(q);
    BeforeGroupFree(q);
    AfterGroupFree(q);
    TailBounded(q);
    if q.groupBy == [] {
      CountPairNone(before + [] + after, "GROUP", "BY");
    } else {
      GroupCut(before, q.groupBy, after);
      ExprsSplit(q.groupBy);
      GroupKeysTest(q.groupBy, p);
    }
  }

  lemma {:induction false} AfterGroupFree(q: Query)
    requires WellFormed(q)
    ensures Without(PHaving(q.having) + POrderBy(q.orderBy), {"GROUP"})
  {
    HavingFree(q);
    TailSections(q);
    OnlyAvoids(POrderBy(q.orderBy), {"ORDER", "BY", "ASC", "DESC"}, {"GROUP"});
  }

  // ------------------------------------------------------------ SELECT list

  lemma {:induction false} ParseSkips(item: seq<Token>, at: nat, n: nat)
    requires at <= n <= |item|
    requires forall k :: at <= k < n ==> !G.IsKw(item[k], "AS")
    ensures G.ParseItem(item, at) == G.ParseItem(item, n)
    decreases n - at
  {
    if at < n { ParseSkips(item, at + 1, n); }
  }

  lemma {:induction false} ParseAt(e: seq<Token>, alias: Name)
    requires e != [] && Without(e, {"AS"}) && NameOk(alias)
    ensures G.ParseItem(e + ([SP, Word("AS"), SP] + PName(alias)), 0)
         == Some(G.SelectItem(e + [SP], alias.text))
  {
    var item, n := e + ([SP, Word("AS"), SP] + PName(alias)), |e| + 1;
    assert Upper("AS") == "AS";
    forall k | 0 <= k < n ensures !G.IsKw(item[k], "AS") {
      if k < |e| { assert item[k] in e; }
    }
    ParseSkips(item, 0, n);
    assert item[n + 1..] == [SP] + PName(alias);
    assert item[..n] == e + [SP];
  }

  lemma {:induction false} ParseNone(e: seq<Token>)
    requires Without(e, {"AS"})
    ensures G.ParseItem(e, 0).None?
  {
    forall k | 0 <= k < |e| ensures !G.IsKw(e[k], "AS") { assert e[k] in e; }
    ParseSkips(e, 0, |e|);
  }

  /** A printed item is parsed back into its expression and alias. */
  lemma {:induction false} ItemParsed(x: Item)
    requires ItemOk(x)
    ensures G.ParseItem(Lex(Unlex(PItem(x))), 0)
         == if x.alias.None? then None else Some(G.SelectItem(PExpr(x.expr) + [SP], x.alias.value.text))
  {
    ItemSection(x);
    LexUnlex(PItem(x));
    ExprInner(x.expr);
    OnlyAvoids(PExpr(x.expr), {}, {"AS"});
    if x.alias.None? {
      assert PItem(x) == PExpr(x.expr);
      ParseNone(PExpr(x.expr));
    } else {
      ParseAt(PExpr(x.expr), x.alias.value);
    }
  }

  /** An output alias bound to the expression approved for it. */
  predicate Bound(x: Item, p: string, i: string) {
    && x.alias.Some?
    && var a := x.alias.value.Key();
       || (a == "PRODUCTID" && ColumnIs(x.expr, p, "PRODUCTID"))
       || (a == "NAME" && ColumnIs(x.expr, p, "NAME"))
       || (a == "CURRENTINVENTORY" && SumOf(x.expr, i, "QUANTITY"))
       || (a == "SAFETYSTOCKLEVEL" && ColumnIs(x.expr, p, "SAFETYSTOCKLEVEL"))
  }

  lemma {:induction false} OutputTexts(p: string, i: string)
    ensures p + ".PRODUCTID" == p + ['.'] + "PRODUCTID"
    ensures p + ".NAME" == p + ['.'] + "NAME"
    ensures p + ".SAFETYSTOCKLEVEL" == p + ['.'] + "SAFETYSTOCKLEVEL"
    ensures "SUM(" + i + ".QUANTITY)" == SumText(i, "QUANTITY")
  {
  }

  lemma {:induction false} OutputDecodes(e: Expr, p: string, i: string)
    requires ExprOk(e) && WordText(p) && WordText(i)
    ensures NExpr(e) == p + ".PRODUCTID" <==> ColumnIs(e, p, "PRODUCTID")
    ensures NExpr(e) == p + ".NAME" <==> ColumnIs(e, p, "NAME")
    ensures NExpr(e) == p + ".SAFETYSTOCKLEVEL" <==> ColumnIs(e, p, "SAFETYSTOCKLEVEL")
    ensures NExpr(e) == "SUM(" + i + ".QUANTITY)" <==> SumOf(e, i, "QUANTITY")
  {
    OutputTexts(p, i);
    ColumnWords();
    ColumnDecodes(e, p, "PRODUCTID");
    ColumnDecodes(e, p, "NAME");
    ColumnDecodes(e, p, "SAFETYSTOCKLEVEL");
    SumDecodes(e, i, "QUANTITY");
  }

  lemma {:induction false} ItemTest(x: Item, p: string, i: string)
    requires ItemOk(x) && WordText(p) && WordText(i)
    ensures G.SelectItemApproved(Unlex(PItem(x)), p, i) <==> Bound(x, p, i)
    ensures x.alias.Some? ==> G.ItemKey(Unlex(PItem(x))) == OutputOf(x)
  {
    ItemParsed(x);
    ExprText(x.expr);
    OutputBound(x, p, i);
  }

  lemma {:induction false} OutputBound(x: Item, p: string, i: string)
    requires ItemOk(x) && WordText(p) && WordText(i)
    ensures x.alias.Some? ==>
      (G.ExpectedExpr(x.alias.value.Key(), p, i) == Some(NExpr(x.expr)) <==> Bound(x, p, i))
  {
    OutputDecodes(x.expr, p, i);
  }

  function OutputOf(x: Item): string { if x.alias.Some? then x.alias.value.Key() else "" }

  /** Four items, each bound, no output twice. */
  predicate BoundItems(xs: seq<Item>, p: string, i: string) {
    && |xs| == 4
    && (forall x <- xs :: Bound(x, p, i))
    && (forall a, b :: 0 <= a < b < |xs| ==> OutputOf(xs[a]) != OutputOf(xs[b]))
  }

  lemma {:induction false} ItemsTest(xs: seq<Item>, p: string, i: string)
    requires (forall x <- xs :: ItemOk(x)) && WordText(p) && WordText(i)
    ensures G.SelectListApproved(Texts(PItems(xs)), p, i) <==> BoundItems(xs, p, i)
  {
    var items := Texts(PItems(xs));
    forall k | 0 <= k < |xs|
      ensures G.SelectItemApproved(items[k], p, i) <==> Bound(xs[k], p, i)
      ensures Bound(xs[k], p, i) ==> G.ItemKey(items[k]) == OutputOf(xs[k])
    {
      assert xs[k] in xs;
      ItemTest(xs[k], p, i);
    }
    if BoundItems(xs, p, i) {
      forall s | s in items ensures G.SelectItemApproved(s, p, i) {
        var k :| 0 <= k < |xs| && s == items[k];
        assert xs[k] in xs;
      }
    }
    if G.SelectListApproved(items, p, i) {
      forall x | x in xs ensures Bound(x, p, i) {
        var k :| 0 <= k < |xs| && x == xs[k];
        assert items[k] in items;
      }
    }
  }

  lemma {:induction false} ItemsSplit(xs: seq<Item>)
    requires xs != [] && forall x <- xs :: ItemOk(x)
    ensures C.Split(Unlex(PList(PItems(xs)))) == Texts(PItems(xs))
  {
    forall s | s in PItems(xs) ensures Fragment(s) && Flat(s) {
      var k :| 0 <= k < |xs| && s == PItem(xs[k]);
      ItemSection(xs[k]);
      FlatItem(xs[k]);
    }
    ListSplit(PItems(xs));
  }

  lemma {:induction false} SelectCut(q: Query)
    requires WellFormed(q)
    ensures G.TopAt(Print(q)).Some?
    ensures G.SelectList(Print(q)) == Unlex(PList(PItems(q.items)))
  {
    TopFound(q);
    ItemsSection(q.items);
    OnlyAvoids(PList(PItems(q.items)), {"AS"}, {"FROM"});
    ListBeforeFrom(q, PList(PItems(q.items)));
  }

  lemma {:induction false} ListBeforeFrom(q: Query, list: seq<Token>)
    requires Fragment(list) && Without(list, {"FROM"})
    ensures Strip(Unlex(G.UpTo([SP] + list + [SP] + PFrom(q) + PTail(q), {"FROM"}))) == Unlex(list)
  {
    var after := [SP] + (PFrom(q) + PTail(q));
    assert Upper("FROM") == "FROM";
    assert after[0] == SP && after[1] == Word("FROM");
    CutText(list, after, {"FROM"});
    SelectAlgebra(list, PFrom(q), PTail(q));
  }

  lemma {:induction false} SelectAlgebra(list: seq<Token>, f: seq<Token>, t: seq<Token>)
    ensures [SP] + list + [SP] + f + t == [SP] + list + ([SP] + (f + t))
  {
  }

  /** The SELECT-list check passes exactly for the four bound outputs, in any order. */
  lemma {:induction false} ItemsRule(q: Query, p: string, i: string)
    requires WellFormed(q) && WordText(p) && WordText(i)
    ensures G.TopAt(Print(q)).Some?
    ensures G.SelectListApproved(C.Split(G.SelectList(Print(q))), p, i) <==> BoundItems(q.items, p, i)
  {
    SelectCut(q);
    ItemsSplit(q.items);
    ItemsTest(q.items, p, i);
  }
}
