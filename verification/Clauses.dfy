/** Rules 4 to 6, 12 and the clause checks on printed statements. */
module Clauses {
  import opened Text
  import opened SqlAst
  import opened Printed
  import opened Scanning
  import opened Sections
  import opened Decoding
  import opened Tables
  import opened CommaSplit
  import Vocabulary
  import G = Guardrail

  // ------------------------------------------------------ SELECT and TOP

  const LATER_WORDS := {"TOP", "AS"} + ({"FROM"} + JOIN_WORDS) + TAIL_WORDS

  /** A printed statement without its first word. */
  function AfterSelect(q: Query): seq<Token> {
    [SP, Word("TOP"), SP, Punct('('), Word(Decimal(q.top)), Punct(')'), SP]
    + (PList(PItems(q.items)) + [SP]) + PFrom(q) + PTail(q)
  }

  lemma {:induction false} AfterSelectOnly(q: Query)
    requires WellFormed(q)
    ensures Only(AfterSelect(q), LATER_WORDS)
  {
    TopOnly(q);
    ItemsSection(q.items);
    FromSection(q);
    TailOnly(q);
  }

  lemma {:induction false} PrintAfterSelect(q: Query)
    ensures Print(q) == [Word("SELECT")] + AfterSelect(q)
  {
    var top := [SP, Word("TOP"), SP, Punct('('), Word(Decimal(q.top)), Punct(')'), SP];
    assert PHead(q) == [Word("SELECT")] + top;
  }

  lemma {:induction false} TopOnly(q: Query)
    ensures Only([SP, Word("TOP"), SP, Punct('('), Word(Decimal(q.top)), Punct(')'), SP], {"TOP"})
  {
    NumberInner(q.top);
    assert Word(Decimal(q.top)) in [Word(Decimal(q.top))];
    assert Upper("TOP") == "TOP";
  }

  lemma {:induction false} LaterForbidden()
    ensures LATER_WORDS !! G.FORBIDDEN_KEYWORDS
  {
    HeadForbidden();
    TailForbidden();
  }

  lemma {:induction false} HeadForbidden()
    ensures {"TOP", "AS"} + ({"FROM"} + JOIN_WORDS) !! G.FORBIDDEN_KEYWORDS
  {
  }

  lemma {:induction false} TailForbidden()
    ensures TAIL_WORDS !! G.FORBIDDEN_KEYWORDS
  {
  }

  lemma {:induction false} OnlyLater(ts: seq<Token>)
    requires Only(ts, LATER_WORDS)
    ensures Without(ts, {"SELECT"}) && Without(ts, G.FORBIDDEN_KEYWORDS)
  {
    LaterForbidden();
    OnlyAvoids(ts, LATER_WORDS, {"SELECT"});
    OnlyAvoids(ts, LATER_WORDS, G.FORBIDDEN_KEYWORDS);
  }

  lemma {:induction false} SelectThen(rest: seq<Token>)
    requires Without(rest, {"SELECT"}) && Without(rest, G.FORBIDDEN_KEYWORDS)
    ensures G.CountKw([Word("SELECT")] + rest, "SELECT") == 1
    ensures G.StartsWithSelect([Word("SELECT")] + rest) && !G.MentionsForbidden([Word("SELECT")] + rest)
  {
    assert Upper("SELECT") == "SELECT";
    CountKwConcat([Word("SELECT")], rest, "SELECT");
    CountKwZero(rest, "SELECT");
    assert [Word("SELECT")][1..] == [];
  }

  lemma {:induction false} OneSelect(q: Query)
    requires WellFormed(q)
    ensures G.CountKw(Print(q), "SELECT") == 1
    ensures G.StartsWithSelect(Print(q)) && !G.MentionsForbidden(Print(q))
  {
    AfterSelectOnly(q);
    PrintAfterSelect(q);
    OnlyLater(AfterSelect(q));
    SelectThen(AfterSelect(q));
  }

  /** The text that follows `TOP (n)`. */
  function AfterTop(q: Query): seq<Token> {
    [SP] + PList(PItems(q.items)) + [SP] + PFrom(q) + PTail(q)
  }

  lemma {:induction false} TopFoundAt(d: string, n: nat, rest: seq<Token>)
    requires d == Decimal(n)
    requires rest != [] && rest[0] == SP
    ensures G.TopAt([Word("SELECT"), SP, Word("TOP"), SP, Punct('('), Word(d), Punct(')')] + rest)
         == Some(G.Top(n, rest))
  {
    var ts := [Word("SELECT"), SP, Word("TOP"), SP, Punct('('), Word(d), Punct(')')] + rest;
    assert Upper("SELECT") == "SELECT" && Upper("TOP") == "TOP";
    assert G.SkipGap(ts) == ts;
    assert ts[3..] == [SP, Punct('('), Word(d), Punct(')')] + rest;
    assert ts[3..][1..] == [Punct('('), Word(d), Punct(')')] + rest;
    assert ts[3..][1..][1..] == [Word(d), Punct(')')] + rest;
    assert ts[3..][1..][1..][1..] == [Punct(')')] + rest;
    assert ([Punct(')')] + rest)[1..] == rest;
    DecimalReads(n);
    Vocabulary.AllDigits(d);
  }

  lemma {:induction false} TopFound(q: Query)
    requires WellFormed(q)
    ensures G.TopAt(Print(q)) == Some(G.Top(q.top, AfterTop(q)))
  {
    TopFoundAt(Decimal(q.top), q.top, AfterTop(q));
    Reassoc(HeadCore(q), [SP], PList(PItems(q.items)), [SP], PFrom(q), PTail(q));
    HeadSection(q);
  }

  lemma {:induction false} Reassoc(h: seq<Token>, a: seq<Token>, b: seq<Token>, c: seq<Token>,
                                   d: seq<Token>, e: seq<Token>)
    ensures (h + a) + (b + c) + d + e == h + (a + b + c + d + e)
  {
  }

  /** Rules 4 to 6 hold exactly when TOP is in range. */
  lemma {:induction false} SelectRule(q: Query)
    requires WellFormed(q)
    ensures G.SingleSelect(Print(q)) <==> 1 <= q.top <= G.MAXIMUM_RETURNED_ROWS
  {
    OneSelect(q);
    TopFound(q);
  }

  // -------------------------------------------------------------- ORDER BY

  /** The first ORDER BY key is a column named ProductID, ascending. */
  predicate FirstKey(ks: seq<OrderKey>) {
    && ks != []
    && ks[0].expr.Column? && ks[0].expr.column.Key() == "PRODUCTID"
    && ks[0].direction == Some(Asc)
  }

  lemma {:induction false} IdentMisses(c: char, k: seq<Token>)
    requires c != '['
    ensures G.IdentAt([Punct(c)] + k) == G.Miss
  {
  }

  lemma {:induction false} IdentNumber(n: nat, k: seq<Token>)
    ensures G.IdentAt([Word(Decimal(n))] + k) == G.Miss
  {
    DecimalReads(n);
    assert Decimal(n)[0] in Decimal(n);
  }

  predicate AscNext(k: seq<Token>) { |k| >= 2 && k[0].Gap? && G.IsKw(k[1], "ASC") }

  /** What the pattern tests after `ORDER BY `. */
  predicate KeyMatches(ts: seq<Token>) {
    G.ProductIdAsc(ts)
    || (var h := G.IdentAt(ts);
        h.Hit? && h.rest != [] && h.rest[0] == Punct('.') && G.ProductIdAsc(h.rest[1..]))
  }

  predicate PlainNext(k: seq<Token>) { k != [] ==> k[0] != Punct(']') && k[0] != Punct('.') }

  lemma {:induction false} NameAsc(c: Name, k: seq<Token>)
    requires NameOk(c) && PlainNext(k)
    ensures G.IdentAt(PName(c) + k) == G.Hit(c.text, k)
    ensures G.ProductIdAsc(PName(c) + k) <==> c.Key() == "PRODUCTID" && AscNext(k)
  {
    IdentName(c, k);
  }

  lemma {:induction false} DottedKey(t: Name, rest: seq<Token>)
    requires NameOk(t)
    ensures KeyMatches(PName(t) + ([Punct('.')] + rest)) <==> G.ProductIdAsc(rest)
  {
    IdentName(t, [Punct('.')] + rest);
    assert ([Punct('.')] + rest)[1..] == rest;
  }

  lemma {:induction false} ColumnKey(t: Option<Name>, c: Name, k: seq<Token>)
    requires (t.Some? ==> NameOk(t.value)) && NameOk(c) && PlainNext(k)
    ensures KeyMatches(PExpr(Column(t, c)) + k) <==> c.Key() == "PRODUCTID" && AscNext(k)
  {
    NameAsc(c, k);
    if t.Some? {
      Reassoc3(PName(t.value), [Punct('.')], PName(c), k);
      DottedKey(t.value, PName(c) + k);
    }
  }

  lemma {:induction false} Reassoc3(a: seq<Token>, b: seq<Token>, c: seq<Token>, k: seq<Token>)
    ensures a + b + c + k == a + (b + (c + k))
  {
  }

  lemma {:induction false} NumberKey(n: nat, k: seq<Token>)
    ensures !KeyMatches(PExpr(Number(n)) + k)
  {
    IdentNumber(n, k);
  }

  lemma {:induction false} CallKey(f: Aggregate, a: Expr, k: seq<Token>)
    ensures !KeyMatches(PExpr(Call(f, a)) + k)
  {
    var rest := PExpr(a) + [Punct(')')] + k;
    assert PExpr(Call(f, a)) + k == [Word(FnText(f))] + ([Punct('(')] + rest);
  }

  lemma {:induction false} ArithKey(op: ArithOp, l: Expr, r: Expr, k: seq<Token>)
    requires ExprOk(l)
    ensures !KeyMatches(PExpr(Arith(op, l, r)) + k)
  {
    var rest := [SP, Punct(ArithChar(op)), SP] + POperand(r) + k;
    assert PExpr(Arith(op, l, r)) + k == POperand(l) + rest;
    assert !AscNext(rest) && PlainNext(rest);
    OperandKey(l, rest);
  }

  lemma {:induction false} OperandKey(l: Expr, rest: seq<Token>)
    requires ExprOk(l) && PlainNext(rest) && !AscNext(rest)
    ensures !KeyMatches(POperand(l) + rest)
  {
    match l
    case Column(t, c) => ColumnKey(t, c, rest);
    case Number(n) => NumberKey(n, rest);
    case Call(f, a) => CallKey(f, a, rest);
    case Arith(_, _, _) =>
      assert POperand(l) + rest == [Punct('(')] + (PExpr(l) + [Punct(')')] + rest);
      IdentMisses('(', PExpr(l) + [Punct(')')] + rest);
  }

  lemma {:induction false} KeyTest(e: Expr, k: seq<Token>)
    requires ExprOk(e) && PlainNext(k)
    ensures KeyMatches(PExpr(e) + k) <==> e.Column? && e.column.Key() == "PRODUCTID" && AscNext(k)
  {
    match e
    case Column(t, c) => ColumnKey(t, c, k);
    case Number(n) => NumberKey(n, k);
    case Call(f, a) => CallKey(f, a, k);
    case Arith(op, l, r) => ArithKey(op, l, r, k);
  }

  function PDirection(d: Option<Direction>): seq<Token> {
    match d
    case None => []
    case Some(Asc) => [SP, Word("ASC")]
    case Some(Desc) => [SP, Word("DESC")]
  }

  /** The keys after the first, with the comma before them. */
  function OtherKeys(ks: seq<OrderKey>): seq<Token>
    requires ks != []
  {
    if |ks| == 1 then [] else [Punct(','), SP] + PList(PKeys(ks)[1..])
  }

  lemma {:induction false} KeysSplit(ks: seq<OrderKey>)
    requires ks != []
    ensures PList(PKeys(ks)) == PExpr(ks[0].expr) + (PDirection(ks[0].direction) + OtherKeys(ks))
  {
    assert PKeys(ks)[0] == PKey(ks[0]);
    assert PKey(ks[0]) == PExpr(ks[0].expr) + PDirection(ks[0].direction);
  }

  /** In place, the pattern accepts exactly the approved first key. */
  lemma {:induction false} FirstKeyAfter(list: seq<Token>)
    ensures G.FirstKeyAt([Word("ORDER"), SP, Word("BY"), SP] + list) <==> KeyMatches(list)
  {
    var ts := [Word("ORDER"), SP, Word("BY"), SP] + list;
    OrderBySpelled();
    assert ts[0] == Word("ORDER") && ts[1] == SP && ts[2] == Word("BY") && ts[3] == SP;
    assert ts[4..] == list;
  }

  lemma {:induction false} OrderBySpelled()
    ensures var w := "ORDER"; |w| == 5 && Upper(w[|w| - 5..]) == "ORDER"
    ensures G.IsKw(Word("BY"), "BY")
  {
    assert "ORDER"[0..] == "ORDER";
    assert Upper("ORDER") == "ORDER" && Upper("BY") == "BY";
  }

  lemma {:induction false} FirstKeyTest(ks: seq<OrderKey>)
    requires ks != [] && ExprOk(ks[0].expr)
    ensures G.FirstKeyAt([Word("ORDER"), SP, Word("BY"), SP] + PList(PKeys(ks))) <==> FirstKey(ks)
  {
    FirstKeyAfter(PList(PKeys(ks)));
    KeysSplit(ks);
    KeyTest(ks[0].expr, PDirection(ks[0].direction) + OtherKeys(ks));
  }

  /** Everything before the ORDER BY clause. */
  function BeforeOrder(q: Query): seq<Token> {
    PUpToFrom(q) + PFrom(q) + (PWhere(q.where) + PGroupBy(q.groupBy) + PHaving(q.having))
  }

  lemma {:induction false} PrintAtOrder(q: Query)
    ensures Print(q) == BeforeOrder(q) + POrderBy(q.orderBy)
  {
    PrintAtFrom(q);
    FourRegrouped(PUpToFrom(q) + PFrom(q), PWhere(q.where), PGroupBy(q.groupBy), PHaving(q.having), POrderBy(q.orderBy));
  }

  lemma {:induction false} PrintAtFrom(q: Query)
    ensures Print(q) == PUpToFrom(q) + PFrom(q)
                      + (PWhere(q.where) + PGroupBy(q.groupBy) + PHaving(q.having) + POrderBy(q.orderBy))
  {
  }

  lemma {:induction false} FourRegrouped(f: seq<Token>, w: seq<Token>, g: seq<Token>, h: seq<Token>, o: seq<Token>)
    ensures f + (w + g + h + o) == f + (w + g + h) + o
    ensures f + (w + g + h + o) == f + w + g + (h + o)
  {
  }

  const FRONT_WORDS := {"SELECT", "TOP", "AS"} + ({"FROM"} + JOIN_WORDS)

  lemma {:induction false} FrontOnly(q: Query)
    requires WellFormed(q)
    ensures Only(PUpToFrom(q) + PFrom(q), FRONT_WORDS)
  {
    FrontSection(q);
    FromSection(q);
    OnlyConcat(PUpToFrom(q), PFrom(q), {"SELECT", "TOP", "AS"}, {"FROM"} + JOIN_WORDS);
  }

  lemma {:induction false} BeforeOrderOnly(q: Query)
    requires WellFormed(q)
    ensures Only(BeforeOrder(q), FRONT_WORDS + ({"WHERE"} + {"GROUP", "BY"} + {"HAVING"}))
  {
    FrontOnly(q);
    TailSections(q);
    var a, b, c := PWhere(q.where), PGroupBy(q.groupBy), PHaving(q.having);
    OnlyConcat(a, b, {"WHERE"}, {"GROUP", "BY"});
    OnlyConcat(a + b, c, {"WHERE"} + {"GROUP", "BY"}, {"HAVING"});
    OnlyConcat(PUpToFrom(q) + PFrom(q), a + b + c, FRONT_WORDS, {"WHERE"} + {"GROUP", "BY"} + {"HAVING"});
  }

  lemma {:induction false} BeforeOrderFree(q: Query)
    requires WellFormed(q)
    ensures Without(BeforeOrder(q), {"ORDER"})
  {
    BeforeOrderOnly(q);
    NoOrderBefore();
    OnlyAvoids(BeforeOrder(q), FRONT_WORDS + ({"WHERE"} + {"GROUP", "BY"} + {"HAVING"}), {"ORDER"});
  }

  lemma {:induction false} NoOrderInFront()
    ensures {"ORDER"} !! FRONT_WORDS
  {
  }

  lemma {:induction false} NoOrderBefore()
    ensures {"ORDER"} !! FRONT_WORDS + ({"WHERE"} + {"GROUP", "BY"} + {"HAVING"})
    ensures {"ORDER"} <= STRUCTURE
  {
    NoOrderInFront();
    assert {"ORDER"} !! {"WHERE"} + {"GROUP", "BY"} + {"HAVING"};
  }

  /** The body of a two-word clause found after text without its first word. */
  lemma {:induction false} PairCounted(before: seq<Token>, v: string, w: string, body: seq<Token>)
    requires Without(before, {v}) && Upper(v) == v && Upper(w) == w
    ensures G.CountPair(before + ([SP, Word(v), SP, Word(w), SP] + body), v, w)
         == 1 + G.CountPair([SP, Word(w), SP] + body, v, w)
  {
    var here := [Word(v), SP, Word(w), SP] + body;
    assert before + ([SP, Word(v), SP, Word(w), SP] + body) == (before + [SP]) + here;
    assert Without(before + [SP], {v});
    CountPairSkips(before + [SP], here, v, w);
    assert here[1..] == [SP, Word(w), SP] + body;
  }

  lemma {:induction false} OrderExists(q: Query)
    requires WellFormed(q)
    ensures G.CountPair(Print(q), "ORDER", "BY") > 0 <==> q.orderBy != []
  {
    PrintAtOrder(q);
    BeforeOrderFree(q);
    if q.orderBy == [] {
      assert BeforeOrder(q) + [] == BeforeOrder(q);
      CountPairNone(BeforeOrder(q), "ORDER", "BY");
    } else {
      assert Upper("ORDER") == "ORDER" && Upper("BY") == "BY";
      PairCounted(BeforeOrder(q), "ORDER", "BY", PList(PKeys(q.orderBy)));
    }
  }

  lemma {:induction false} FirstKeyAtPair(w: string, rest: seq<Token>)
    ensures G.HasFirstKey([Word(w), SP, Word("BY"), SP] + rest)
        <==> G.FirstKeyAt([Word(w), SP, Word("BY"), SP] + rest) || G.HasFirstKey([SP] + rest)
  {
    var ts := [Word(w), SP, Word("BY"), SP] + rest;
    var t1, t2 := [SP, Word("BY"), SP] + rest, [Word("BY"), SP] + rest;
    assert ts[1..] == t1 && t1[1..] == t2 && t2[1..] == [SP] + rest;
    assert G.HasFirstKey(t1) == G.HasFirstKey(t2) == G.HasFirstKey([SP] + rest);
  }

  /** With no BY before it, ORDER BY alone decides. */
  lemma {:induction false} FirstKeyLast(a: seq<Token>, ks: seq<OrderKey>)
    requires Without(a, {"BY"})
    requires forall k <- ks :: ExprOk(k.expr)
    ensures G.HasFirstKey(a + POrderBy(ks)) <==> FirstKey(ks)
  {
    if ks == [] {
      assert a + POrderBy(ks) == a;
      FirstKeyNone(a);
    } else {
      var here := [Word("ORDER"), SP, Word("BY"), SP] + PList(PKeys(ks));
      assert a + POrderBy(ks) == (a + [SP]) + here;
      FirstKeySkips(a + [SP], here);
      FirstKeyStarts(ks);
    }
  }

  lemma {:induction false} FirstKeyStarts(ks: seq<OrderKey>)
    requires ks != [] && forall k <- ks :: ExprOk(k.expr)
    ensures G.HasFirstKey([Word("ORDER"), SP, Word("BY"), SP] + PList(PKeys(ks))) <==> FirstKey(ks)
  {
    var list := PList(PKeys(ks));
    assert ks[0] in ks;
    FirstKeyAtPair("ORDER", list);
    FirstKeyTest(ks);
    KeysQuiet(ks);
    FirstKeyNone([SP] + list);
  }

  lemma {:induction false} KeysQuiet(ks: seq<OrderKey>)
    requires ks != [] && forall k <- ks :: ExprOk(k.expr)
    ensures Without([SP] + PList(PKeys(ks)), {"BY"})
  {
    KeysSection(ks);
    OnlyAvoids(PList(PKeys(ks)), {"ASC", "DESC"}, {"BY"});
  }

  /** A GROUP BY on the way is not mistaken for an ORDER BY. */
  lemma {:induction false} FirstKeyPastGroup(a: seq<Token>, list: seq<Token>, rest: seq<Token>)
    requires Without(a, {"BY"})
    ensures G.HasFirstKey(a + ([SP, Word("GROUP"), SP, Word("BY"), SP] + list) + rest)
        <==> G.HasFirstKey([SP] + list + rest)
  {
    var here := [Word("GROUP"), SP, Word("BY"), SP] + (list + rest);
    SpaceOut(a, [Word("GROUP"), SP, Word("BY"), SP], list, rest);
    assert [SP] + [Word("GROUP"), SP, Word("BY"), SP] + list == [SP, Word("GROUP"), SP, Word("BY"), SP] + list;
    FirstKeySkips(a + [SP], here);
    FirstKeyAtPair("GROUP", list + rest);
    GroupNotOrder(list + rest);
  }

  lemma {:induction false} SpaceOut(a: seq<Token>, w: seq<Token>, list: seq<Token>, rest: seq<Token>)
    ensures a + ([SP] + w + list) + rest == (a + [SP]) + (w + (list + rest))
    ensures [SP] + (list + rest) == [SP] + list + rest
  {
  }

  lemma {:induction false} GroupNotOrder(rest: seq<Token>)
    ensures !G.FirstKeyAt([Word("GROUP"), SP, Word("BY"), SP] + rest)
  {
    assert "GROUP"[0..] == "GROUP" && Upper("GROUP") == "GROUP";
  }

  /** Rule 12: the first ORDER BY key is ProductID ASC. */
  lemma {:induction false} FirstKeyRule(q: Query)
    requires WellFormed(q)
    ensures G.HasFirstKey(Print(q)) <==> FirstKey(q.orderBy)
  {
    var a, c, d := PUpToFrom(q) + PFrom(q) + PWhere(q.where), PHaving(q.having), POrderBy(q.orderBy);
    BeforeGroupFree(q);
    PrintAtGroup(q);
    HavingFree(q);
    FirstKeyPast(a, q.groupBy, c, q.orderBy);
  }

  lemma {:induction false} FirstKeyPast(a: seq<Token>, es: seq<Expr>, c: seq<Token>, ks: seq<OrderKey>)
    requires Without(a, {"BY"}) && Without(c, {"BY"})
    requires (forall e <- es :: ExprOk(e)) && (forall k <- ks :: ExprOk(k.expr))
    ensures G.HasFirstKey(a + PGroupBy(es) + (c + POrderBy(ks))) <==> FirstKey(ks)
  {
    var d := POrderBy(ks);
    if es == [] {
      assert a + [] + (c + d) == (a + c) + d;
      FirstKeyLast(a + c, ks);
    } else {
      var list := PList(PExprs(es));
      FirstKeyPastGroup(a, list, c + d);
      assert [SP] + list + (c + d) == ([SP] + list + c) + d;
      GroupListFree(es);
      FirstKeyLast([SP] + list + c, ks);
    }
  }

  lemma {:induction false} PrintAtGroup(q: Query)
    ensures Print(q) == PUpToFrom(q) + PFrom(q) + PWhere(q.where) + PGroupBy(q.groupBy)
                        + (PHaving(q.having) + POrderBy(q.orderBy))
  {
    PrintAtFrom(q);
    FourRegrouped(PUpToFrom(q) + PFrom(q), PWhere(q.where), PGroupBy(q.groupBy), PHaving(q.having), POrderBy(q.orderBy));
  }

  lemma {:induction false} BeforeGroupFree(q: Query)
    requires WellFormed(q)
    ensures Without(PUpToFrom(q) + PFrom(q) + PWhere(q.where), {"BY"})
    ensures Without(PUpToFrom(q) + PFrom(q) + PWhere(q.where), {"GROUP"})
  {
    FrontOnly(q);
    TailSections(q);
    var ks := FRONT_WORDS + {"WHERE"};
    OnlyConcat(PUpToFrom(q) + PFrom(q), PWhere(q.where), FRONT_WORDS, {"WHERE"});
    NoByBefore();
    NoGroupBefore();
    OnlyAvoids(PUpToFrom(q) + PFrom(q) + PWhere(q.where), ks, {"BY"});
    OnlyAvoids(PUpToFrom(q) + PFrom(q) + PWhere(q.where), ks, {"GROUP"});
  }

  lemma {:induction false} NoByBefore()
    ensures {"BY"} !! FRONT_WORDS + {"WHERE"} && {"BY"} <= STRUCTURE
  {
    assert "BY" !in FRONT_WORDS && "BY" != "WHERE";
  }

  lemma {:induction false} NoGroupBefore()
    ensures {"GROUP"} !! FRONT_WORDS + {"WHERE"} && {"GROUP"} <= STRUCTURE
  {
    assert "GROUP" !in FRONT_WORDS && "GROUP" != "WHERE";
  }

  lemma {:induction false} HavingFree(q: Query)
    requires WellFormed(q)
    ensures Without(PHaving(q.having), {"BY"}) && Without(PHaving(q.having), {"GROUP"})
  {
    TailSections(q);
    OnlyAvoids(PHaving(q.having), {"HAVING"}, {"BY"});
    OnlyAvoids(PHaving(q.having), {"HAVING"}, {"GROUP"});
  }

  lemma {:induction false} GroupListFree(es: seq<Expr>)
    requires es != [] && forall e <- es :: ExprOk(e)
    ensures Without(PList(PExprs(es)), {"BY"}) && Without(PList(PExprs(es)), G.CLAUSE_BOUNDARIES)
  {
    ExprsSection(es);
    OnlyAvoids(PList(PExprs(es)), {}, {"BY"});
    OnlyAvoids(PList(PExprs(es)), {}, G.CLAUSE_BOUNDARIES);
  }
}
