/** What every printed piece of SQL looks like to the guardrail's scanner. */
module Printed {
  import opened Text
  import opened SqlAst
  import G = Guardrail
  import CommaSplit

  /** Keywords that structure a statement, and forbidden ones: never a name, never inside an expression. */
  const STRUCTURE := {
    "SELECT", "FROM", "JOIN", "INNER", "LEFT", "ON", "WHERE", "GROUP", "BY", "HAVING",
    "ORDER", "ASC", "DESC", "TOP", "AS"
  } + G.FORBIDDEN_KEYWORDS

  predicate PunctOk(t: Token) {
    t.Punct? ==>
      || t.c == '[' || t.c == ']' || t.c == '(' || t.c == ')' || t.c == ',' || t.c == '.'
      || t.c == '+' || t.c == '-' || t.c == '*' || t.c == '=' || t.c == '<' || t.c == '>'
  }

  predicate DashSpaced(ts: seq<Token>) {
    forall i :: 0 <= i < |ts| && ts[i] == Punct('-') ==> i + 1 < |ts| && ts[i + 1] == SP
  }

  /** A stretch of printed text that starts and ends with a visible token. */
  predicate Fragment(ts: seq<Token>) {
    && ts != [] && !ts[0].Gap? && !ts[|ts| - 1].Gap?
    && Separated(ts)
    && (forall t <- ts :: PunctOk(t))
    && DashSpaced(ts)
  }

  /** A separator: no word at either end. */
  predicate Separator(ts: seq<Token>) {
    && ts != [] && !ts[0].Word? && !ts[|ts| - 1].Word?
    && Separated(ts)
    && (forall t <- ts :: PunctOk(t))
    && DashSpaced(ts)
  }

  predicate Quiet(ts: seq<Token>) { forall t <- ts :: !G.Stops(t, STRUCTURE) }

  /** Text of an expression or a condition. */
  predicate Inner(ts: seq<Token>) { Fragment(ts) && Quiet(ts) }

  predicate InnerSeparator(ts: seq<Token>) { Separator(ts) && Quiet(ts) }

  lemma {:induction false} FragmentAppend(a: seq<Token>, b: seq<Token>)
    requires Fragment(a) && Fragment(b)
    requires a[|a| - 1].Punct? || b[0].Punct?
    ensures Fragment(a + b)
  {
    SeparatedConcat(a, b);
  }

  lemma {:induction false} FragmentSep(a: seq<Token>, sep: seq<Token>, b: seq<Token>)
    requires Fragment(a) && Separator(sep) && Fragment(b)
    ensures Fragment(a + sep + b)
  {
    SeparatedConcat(a, sep);
    SeparatedConcat(a + sep, b);
  }

  lemma {:induction false} InnerSep(a: seq<Token>, sep: seq<Token>, b: seq<Token>)
    requires Inner(a) && InnerSeparator(sep) && Inner(b)
    ensures Inner(a + sep + b)
  {
    FragmentSep(a, sep, b);
  }

  lemma {:induction false} InnerParens(a: seq<Token>)
    requires Inner(a)
    ensures Inner(Parens(a))
  {
    FragmentAppend([Punct('(')], a);
    FragmentAppend([Punct('(')] + a, [Punct(')')]);
  }

  lemma {:induction false} KeywordsAreNames(w: string)
    requires w in STRUCTURE + G.RESERVED_WORDS
    ensures w != "" && IsIdentStart(w[0])
  {
  }

  lemma {:induction false} NameInner(n: Name)
    requires NameOk(n)
    ensures Inner(PName(n))
  {
    if n.bracketed { BracketedInner(n.text); }
  }

  lemma {:induction false} BracketedInner(w: string)
    requires TokenOk(Word(w)) && Upper(w) !in STRUCTURE
    ensures Inner([Punct('['), Word(w), Punct(']')])
  {
    var ts := [Punct('['), Word(w), Punct(']')];
    assert ts[0] == Punct('[') && ts[1] == Word(w) && ts[2] == Punct(']');
  }

  lemma {:induction false} NumberInner(n: nat)
    ensures Inner([Word(Decimal(n))])
  {
    DecimalReads(n);
    var d := Decimal(n);
    assert d[0] in d;
    if Upper(d) in STRUCTURE { KeywordsAreNames(Upper(d)); }
  }

  lemma {:induction false} OperatorWords(w: string)
    requires w in {"SUM", "COUNT", "AVG", "MIN", "MAX", "AND", "OR", "NOT"}
    ensures Inner([Word(w)])
  {
    OperatorForbidden(w);
  }

  lemma {:induction false} OperatorForbidden(w: string)
    requires w in {"SUM", "COUNT", "AVG", "MIN", "MAX", "AND", "OR", "NOT"}
    ensures w !in G.FORBIDDEN_KEYWORDS && TokenOk(Word(w)) && Upper(w) == w
  {
  }

  lemma {:induction false} FnInner(f: Aggregate, a: seq<Token>)
    requires Inner(a)
    ensures Inner([Word(FnText(f))] + Parens(a))
  {
    InnerParens(a);
    OperatorWords(FnText(f));
    FragmentAppend([Word(FnText(f))], Parens(a));
  }

  lemma {:induction false} SpacedSymbol(c: char)
    requires PunctOk(Punct(c)) && TokenOk(Punct(c))
    ensures InnerSeparator([SP, Punct(c), SP])
  {
    var ts := [SP, Punct(c), SP];
    assert ts[0] == SP && ts[1] == Punct(c) && ts[2] == SP;
  }

  lemma {:induction false} SymbolSeparator(c: char)
    requires PunctOk(Punct(c)) && TokenOk(Punct(c))
    ensures c != '-' ==> InnerSeparator([Punct(c)])
    ensures c != '-' ==> InnerSeparator([Punct(c), SP])
    ensures InnerSeparator([SP, Punct(c), SP])
    ensures InnerSeparator([SP])
  {
    SpacedSymbol(c);
  }

  /** Two signs between gaps. */
  lemma {:induction false} SignPair(c: char, d: char)
    requires (c == '<' || c == '>') && (d == '=' || d == '>')
    ensures InnerSeparator([SP, Punct(c), Punct(d), SP])
  {
    var ts := [SP, Punct(c), Punct(d), SP];
    FourTokens(SP, Punct(c), Punct(d), SP);
    assert forall t <- ts :: PunctOk(t);
  }

  lemma {:induction false} FourTokens(a: Token, b: Token, c: Token, d: Token)
    requires TokenOk(a) && TokenOk(b) && TokenOk(c) && TokenOk(d)
    requires !Mergeable(a, b) && !Mergeable(b, c) && !Mergeable(c, d)
    requires a != Punct('-') && b != Punct('-') && c != Punct('-') && d != Punct('-')
    ensures Separated([a, b, c, d]) && DashSpaced([a, b, c, d])
  {
    var ts := [a, b, c, d];
    assert ts[0] == a && ts[1] == b && ts[2] == c && ts[3] == d;
  }

  lemma {:induction false} CmpSeparator(cmp: Comparison)
    ensures InnerSeparator(CmpTokens(cmp))
  {
    match cmp
    case Eq => SpacedSymbol('=');
    case Lt => SpacedSymbol('<');
    case Gt => SpacedSymbol('>');
    case Ne => SignPair('<', '>');
    case Le => SignPair('<', '=');
    case Ge => SignPair('>', '=');
  }

  lemma {:induction false} Connective(w: string)
    requires w == "AND" || w == "OR"
    ensures InnerSeparator([SP, Word(w), SP])
  {
    OperatorWords(w);
    assert Word(w) in [Word(w)];
  }

  lemma {:induction false} ExprInner(e: Expr)
    requires ExprOk(e)
    ensures Inner(PExpr(e))
    decreases e, 0
  {
    match e
    case Column(None, c) => NameInner(c);
    case Column(Some(t), c) =>
      NameInner(t);
      NameInner(c);
      SymbolSeparator('.');
      InnerSep(PName(t), [Punct('.')], PName(c));
    case Number(n) => NumberInner(n);
    case Call(f, a) =>
      ExprInner(a);
      FnInner(f, PExpr(a));
    case Arith(op, l, r) =>
      OperandInner(l);
      OperandInner(r);
      SymbolSeparator(ArithChar(op));
      InnerSep(POperand(l), [SP, Punct(ArithChar(op)), SP], POperand(r));
  }

  lemma {:induction false} OperandInner(e: Expr)
    requires ExprOk(e)
    ensures Inner(POperand(e))
    decreases e, 1
  {
    ExprInner(e);
    InnerParens(PExpr(e));
  }

  lemma {:induction false} CondInner(c: Cond)
    requires CondOk(c)
    ensures Inner(PCond(c))
    decreases c, 0
  {
    match c
    case Compare(op, l, r) =>
      ExprInner(l);
      ExprInner(r);
      CmpSeparator(op);
      InnerSep(PExpr(l), CmpTokens(op), PExpr(r));
    case And(a, b) =>
      TermInner(a);
      TermInner(b);
      Connective("AND");
      InnerSep(PTerm(a), [SP, Word("AND"), SP], PTerm(b));
    case Or(a, b) =>
      TermInner(a);
      TermInner(b);
      Connective("OR");
      InnerSep(PTerm(a), [SP, Word("OR"), SP], PTerm(b));
    case Not(a) =>
      TermInner(a);
      OperatorWords("NOT");
      SymbolSeparator('.');
      InnerSep([Word("NOT")], [SP], PTerm(a));
  }

  lemma {:induction false} TermInner(c: Cond)
    requires CondOk(c)
    ensures Inner(PTerm(c))
    decreases c, 1
  {
    CondInner(c);
    InnerParens(PCond(c));
  }
}
