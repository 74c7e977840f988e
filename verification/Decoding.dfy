/** Normalised text determines the expression it was printed from. Normalising
    glues neighbouring words together, so a condition is only determined up to a
    leading NOT: `NOT x.c = y.c` and `NOTx.c = y.c` normalise alike. */
module Decoding {
  import opened Text
  import opened SqlAst
  import opened Printed

  function NExpr(e: Expr): string { NormTokens(PExpr(e)) }

  function NCond(c: Cond): string { NormTokens(PCond(c)) }

  predicate IsCmpChar(c: char) { c == '<' || c == '>' || c == '=' }

  predicate Lacks(s: string, c: char) { forall x <- s :: x != c }

  predicate NoSign(s: string) { forall x <- s :: !IsCmpChar(x) }

  predicate WordText(s: string) { s != "" && forall c <- s :: IsWordChar(c) }

  function Signs(s: string): nat {
    if s == "" then 0 else (if IsCmpChar(s[0]) then 1 else 0) + Signs(s[1..])
  }

  lemma {:induction false} SignsConcat(a: string, b: string)
    ensures Signs(a + b) == Signs(a) + Signs(b)
  {
    if a == "" { assert a + b == b; }
    else { SignsConcat(a[1..], b); assert (a + b)[1..] == a[1..] + b; }
  }

  lemma {:induction false} SignsZero(s: string)
    requires NoSign(s)
    ensures Signs(s) == 0
  {
    if s != "" {
      assert s[0] in s;
      assert forall c <- s[1..] :: c in s;
      SignsZero(s[1..]);
    }
  }

  lemma {:induction false} SignsAround(a: string, m: string, b: string)
    requires NoSign(a) && NoSign(b)
    ensures Signs(a + m + b) == Signs(m)
  {
    SignsConcat(a + m, b);
    SignsConcat(a, m);
    SignsZero(a);
    SignsZero(b);
  }

  lemma {:induction false} FirstAt(a: string, c: char, b: string)
    requires Lacks(a, c)
    ensures (a + [c] + b)[|a|] == c
    ensures forall k :: 0 <= k < |a| ==> (a + [c] + b)[k] != c
    ensures (a + [c] + b)[..|a|] == a && (a + [c] + b)[|a| + 1..] == b
  {
    forall k | 0 <= k < |a| ensures (a + [c] + b)[k] != c { assert a[k] in a; }
  }

  /** Two splits of one text at the first occurrence of a character agree. */
  lemma {:induction false} SplitAt(a: string, b: string, x: string, y: string, c: char)
    requires a + [c] + b == x + [c] + y
    requires Lacks(a, c) && Lacks(x, c)
    ensures a == x && b == y
  {
    FirstAt(a, c, b);
    FirstAt(x, c, y);
  }

  lemma {:induction false} FirstSign(a: string, m: string, b: string)
    requires NoSign(a) && m != "" && IsCmpChar(m[0])
    ensures |a + m + b| > |a| && IsCmpChar((a + m + b)[|a|])
    ensures forall k :: 0 <= k < |a| ==> !IsCmpChar((a + m + b)[k])
    ensures (a + m + b)[..|a|] == a && (a + m + b)[|a|..] == m + b
  {
    forall k | 0 <= k < |a| ensures !IsCmpChar((a + m + b)[k]) { assert a[k] in a; }
  }

  /** The same for the first comparison sign. */
  lemma {:induction false} SplitAtSign(a: string, m: string, b: string, x: string, n: string, y: string)
    requires a + m + b == x + n + y
    requires NoSign(a) && NoSign(x)
    requires m != "" && IsCmpChar(m[0]) && n != "" && IsCmpChar(n[0])
    ensures a == x && m + b == n + y
  {
    FirstSign(a, m, b);
    FirstSign(x, n, y);
  }

  // ------------------------------------------- normalised text, piece by piece

  lemma {:induction false} KeyWord(n: Name)
    requires NameOk(n)
    ensures WordText(n.Key())
  {
    forall k | 0 <= k < |n.text| ensures IsWordChar(n.Key()[k]) {
      assert n.text[k] in n.text;
    }
  }

  lemma {:induction false} NormOne(t: Token)
    ensures NormTokens([t]) == NormToken(t)
  {
    assert [t][1..] == [];
    assert NormToken(t) + "" == NormToken(t);
  }

  lemma {:induction false} NormThree(a: Token, b: Token, c: Token)
    ensures NormTokens([a, b, c]) == NormToken(a) + NormToken(b) + NormToken(c)
  {
    NormTokensConcat([a] + [b], [c]);
    NormTokensConcat([a], [b]);
    NormOne(a); NormOne(b); NormOne(c);
    assert [a, b, c] == [a] + [b] + [c];
  }

  lemma {:induction false} NormMiddle(a: seq<Token>, m: seq<Token>, b: seq<Token>)
    ensures NormTokens(a + m + b) == NormTokens(a) + NormTokens(m) + NormTokens(b)
  {
    NormTokensConcat(a + m, b);
    NormTokensConcat(a, m);
  }

  lemma {:induction false} NameNorm(n: Name)
    requires NameOk(n)
    ensures NormTokens(PName(n)) == n.Key()
  {
    NormOne(Word(n.text));
    NormThree(Punct('['), Word(n.text), Punct(']'));
    assert "" + n.Key() + "" == n.Key();
  }

  lemma {:induction false} ParensNorm(ts: seq<Token>)
    ensures NormTokens(Parens(ts)) == "(" + NormTokens(ts) + ")"
  {
    NormMiddle([Punct('(')], ts, [Punct(')')]);
    NormOne(Punct('('));
    NormOne(Punct(')'));
  }

  lemma {:induction false} SpacedNorm(t: Token)
    ensures NormTokens([SP, t, SP]) == NormToken(t)
  {
    NormThree(SP, t, SP);
    assert "" + NormToken(t) + "" == NormToken(t);
  }

  lemma {:induction false} ColumnNorm(t: Name, c: Name)
    requires NameOk(t) && NameOk(c)
    ensures NExpr(Column(Some(t), c)) == t.Key() + ['.'] + c.Key()
    ensures WordText(t.Key()) && WordText(c.Key())
  {
    NormMiddle(PName(t), [Punct('.')], PName(c));
    NormOne(Punct('.'));
    NameNorm(t);
    NameNorm(c);
    KeyWord(t);
    KeyWord(c);
  }

  lemma {:induction false} FnChars(f: Aggregate)
    ensures FnText(f) != "" && forall c <- FnText(f) :: 'A' <= c <= 'Z'
    ensures Upper(FnText(f)) == FnText(f)
    ensures FnText(f) == "SUM" ==> f == Sum
  {
  }

  lemma {:induction false} CallNorm(f: Aggregate, a: Expr)
    ensures NExpr(Call(f, a)) == FnText(f) + ['('] + (NExpr(a) + [')'])
  {
    NormTokensConcat([Word(FnText(f))], Parens(PExpr(a)));
    NormOne(Word(FnText(f)));
    ParensNorm(PExpr(a));
    FnChars(f);
  }

  lemma {:induction false} ArithNorm(op: ArithOp, l: Expr, r: Expr)
    ensures NExpr(Arith(op, l, r))
         == NormTokens(POperand(l)) + [ArithChar(op)] + NormTokens(POperand(r))
  {
    NormMiddle(POperand(l), [SP, Punct(ArithChar(op)), SP], POperand(r));
    SpacedNorm(Punct(ArithChar(op)));
  }

  lemma {:induction false} NumberNorm(n: nat)
    ensures NExpr(Number(n)) != "" && forall c <- NExpr(Number(n)) :: IsDigit(c)
  {
    NormOne(Word(Decimal(n)));
    DecimalReads(n);
    forall k | 0 <= k < |Decimal(n)| ensures IsDigit(Upper(Decimal(n))[k]) {
      assert Decimal(n)[k] in Decimal(n);
    }
  }

  lemma {:induction false} NoSignAround(a: string, c: char, b: string)
    requires NoSign(a) && NoSign(b) && !IsCmpChar(c)
    ensures NoSign(a + [c] + b)
  {
  }

  lemma {:induction false} WordNoSign(s: string)
    requires forall c <- s :: IsWordChar(c)
    ensures NoSign(s)
  {
  }

  lemma {:induction false} CallNoSign(f: Aggregate, a: Expr)
    requires NoSign(NExpr(a))
    ensures NoSign(NExpr(Call(f, a)))
  {
    CallNorm(f, a);
    FnChars(f);
    WordNoSign(FnText(f));
    assert NoSign(NExpr(a) + [')']);
    NoSignAround(FnText(f), '(', NExpr(a) + [')']);
  }

  lemma {:induction false} ExprNoSign(e: Expr)
    requires ExprOk(e)
    ensures NoSign(NExpr(e))
    decreases e, 0
  {
    match e
    case Column(None, c) => NameNorm(c); KeyWord(c); WordNoSign(c.Key());
    case Column(Some(t), c) =>
      ColumnNorm(t, c);
      WordNoSign(t.Key());
      WordNoSign(c.Key());
      NoSignAround(t.Key(), '.', c.Key());
    case Number(n) => NumberNorm(n); WordNoSign(NExpr(e));
    case Call(f, a) => ExprNoSign(a); CallNoSign(f, a);
    case Arith(op, l, r) =>
      ArithNorm(op, l, r);
      OperandNoSign(l);
      OperandNoSign(r);
      NoSignAround(NormTokens(POperand(l)), ArithChar(op), NormTokens(POperand(r)));
  }

  lemma {:induction false} OperandNoSign(e: Expr)
    requires ExprOk(e)
    ensures NoSign(NormTokens(POperand(e)))
    decreases e, 1
  {
    ExprNoSign(e);
    ParensNorm(PExpr(e));
  }

  // ------------------------------------------------------ decoding expressions

  predicate ColumnIs(e: Expr, table: string, column: string) {
    e.Column? && e.table.Some? && e.table.value.Key() == table && e.column.Key() == column
  }

  /** The symbol each kind of expression leaves in its text. */
  lemma {:induction false} Symbols(e: Expr)
    requires ExprOk(e)
    ensures (e.Column? && e.table.None?) || e.Number? ==> Lacks(NExpr(e), '.') && Lacks(NExpr(e), '(')
    ensures e.Column? ==> Lacks(NExpr(e), '(')
    ensures e.Call? ==> !Lacks(NExpr(e), '(')
    ensures e.Arith? ==> !Lacks(NExpr(e), ArithChar(e.op))
  {
    match e
    case Column(None, c) => NameNorm(c); KeyWord(c);
    case Column(Some(t), c) => ColumnNorm(t, c);
    case Number(n) => NumberNorm(n);
    case Call(f, x) => CallNorm(f, x); assert '(' in NExpr(e);
    case Arith(op, l, r) => ArithNorm(op, l, r); assert ArithChar(op) in NExpr(e);
  }

  lemma {:induction false} DottedChars(a: string, b: string, c: char)
    requires WordText(a) && WordText(b)
    requires !IsWordChar(c)
    ensures !Lacks(a + ['.'] + b, '.')
    ensures c != '.' ==> Lacks(a + ['.'] + b, c)
  {
    assert '.' in a + ['.'] + b;
  }

  /** Only a qualified column leaves `word.word` behind. */
  lemma {:induction false} ColumnDecodes(e: Expr, a: string, b: string)
    requires ExprOk(e)
    requires WordText(a) && WordText(b)
    ensures NExpr(e) == a + ['.'] + b <==> ColumnIs(e, a, b)
  {
    Symbols(e);
    DottedChars(a, b, '(');
    if e.Arith? { DottedChars(a, b, ArithChar(e.op)); }
    if e.Column? && e.table.Some? {
      var t, c := e.table.value, e.column;
      ColumnNorm(t, c);
      if NExpr(e) == a + ['.'] + b { SplitAt(t.Key(), c.Key(), a, b, '.'); }
    }
  }

  predicate SumOf(e: Expr, a: string, b: string) {
    e.Call? && e.fn.Sum? && ColumnIs(e.arg, a, b)
  }

  function SumText(a: string, b: string): string { "SUM" + ['('] + (a + ['.'] + b + [')']) }

  lemma {:induction false} SumChars(a: string, b: string, op: ArithOp)
    requires WordText(a) && WordText(b)
    ensures !Lacks(SumText(a, b), '(')
    ensures Lacks(SumText(a, b), ArithChar(op))
  {
    DottedChars(a, b, ArithChar(op));
    assert '(' in SumText(a, b);
    assert Lacks("SUM(", ArithChar(op));
    assert SumText(a, b) == "SUM(" + (a + ['.'] + b) + ")";
  }

  lemma {:induction false} SumDecodes(e: Expr, a: string, b: string)
    requires ExprOk(e)
    requires WordText(a) && WordText(b)
    ensures NExpr(e) == SumText(a, b) <==> SumOf(e, a, b)
  {
    Symbols(e);
    SumChars(a, b, if e.Arith? then e.op else Add);
    if e.Call? {
      CallNorm(e.fn, e.arg);
      FnChars(e.fn);
      ColumnDecodes(e.arg, a, b);
      if NExpr(e) == SumText(a, b) {
        SplitAt(FnText(e.fn), NExpr(e.arg) + [')'], "SUM", a + ['.'] + b + [')'], '(');
        DropLast(NExpr(e.arg), a + ['.'] + b, ')');
      }
    }
  }

  lemma {:induction false} DropLast(a: string, b: string, c: char)
    requires a + [c] == b + [c]
    ensures a == b
  {
    assert a == (a + [c])[..|a|] && b == (b + [c])[..|b|];
  }

  // ------------------------------------------------------- decoding conditions

  function CmpText(c: Comparison): string {
    match c
    case Eq => "=" case Ne => "<>" case Lt => "<" case Le => "<=" case Gt => ">" case Ge => ">="
  }

  lemma {:induction false} CmpNorm(c: Comparison)
    ensures NormTokens(CmpTokens(c)) == CmpText(c)
  {
    var ts := CmpTokens(c);
    if |ts| == 3 {
      SpacedNorm(ts[1]);
    } else {
      NormThree(SP, ts[1], ts[2]);
      NormTokensConcat([SP, ts[1], ts[2]], [SP]);
      NormOne(SP);
      assert ts == [SP, ts[1], ts[2]] + [SP];
    }
  }

  lemma {:induction false} SignsOne(c: char)
    ensures Signs([c]) == if IsCmpChar(c) then 1 else 0
  {
    assert [c][1..] == "";
  }

  lemma {:induction false} CmpSigns(op: Comparison)
    ensures Signs(CmpText(op)) == |CmpText(op)| >= 1 && IsCmpChar(CmpText(op)[0])
  {
    var s := CmpText(op);
    SignsOne(s[0]);
    if |s| == 1 {
      assert s == [s[0]];
    } else {
      SignsOne(s[1]);
      SignsConcat([s[0]], [s[1]]);
      assert s == [s[0]] + [s[1]];
    }
  }

  lemma {:induction false} CompareNorm(op: Comparison, l: Expr, r: Expr)
    ensures NCond(Compare(op, l, r)) == NExpr(l) + CmpText(op) + NExpr(r)
  {
    NormMiddle(PExpr(l), CmpTokens(op), PExpr(r));
    CmpNorm(op);
  }

  lemma {:induction false} NotNorm(c: Cond)
    ensures NCond(Not(c)) == "NOT" + NormTokens(PTerm(c))
  {
    NormMiddle([Word("NOT")], [SP], PTerm(c));
    NotSpaced();
  }

  lemma {:induction false} NotSpaced()
    ensures NormTokens([Word("NOT")]) + NormTokens([SP]) == "NOT"
  {
    NormOne(Word("NOT"));
    NormOne(SP);
    assert Upper("NOT") == "NOT";
  }

  lemma {:induction false} TermSigns(c: Cond)
    ensures Signs(NormTokens(PTerm(c))) == Signs(NCond(c))
  {
    ParensNorm(PCond(c));
    SignsConcat("(" + NCond(c), ")");
    SignsConcat("(", NCond(c));
    SignsZero("(");
    SignsZero(")");
  }

  lemma {:induction false} CompareSigns(op: Comparison, l: Expr, r: Expr)
    requires ExprOk(l) && ExprOk(r)
    ensures Signs(NCond(Compare(op, l, r))) == |CmpText(op)| >= 1
  {
    CompareNorm(op, l, r);
    ExprNoSign(l);
    ExprNoSign(r);
    SignsAround(NExpr(l), CmpText(op), NExpr(r));
    CmpSigns(op);
  }

  lemma {:induction false} NotSigns(c: Cond)
    ensures Signs(NCond(Not(c))) == Signs(NCond(c))
  {
    NotNorm(c);
    TermSigns(c);
    SignsConcat("NOT", NormTokens(PTerm(c)));
    SignsZero("NOT");
  }

  lemma {:induction false} ConnectiveSigns(a: Cond, w: string, b: Cond)
    ensures Signs(NormTokens(PTerm(a) + [SP, Word(w), SP] + PTerm(b)))
         >= Signs(NCond(a)) + Signs(NCond(b))
  {
    NormMiddle(PTerm(a), [SP, Word(w), SP], PTerm(b));
    SignsConcat(NormTokens(PTerm(a)) + NormTokens([SP, Word(w), SP]), NormTokens(PTerm(b)));
    SignsConcat(NormTokens(PTerm(a)), NormTokens([SP, Word(w), SP]));
    TermSigns(a);
    TermSigns(b);
  }

  /** Every comparison leaves a sign behind; AND and OR leave at least two. */
  lemma {:induction false} CondSigns(c: Cond)
    requires CondOk(c)
    ensures Signs(NCond(c)) >= 1
    ensures c.And? || c.Or? ==> Signs(NCond(c)) >= 2
  {
    match c
    case Compare(op, l, r) => CompareSigns(op, l, r);
    case And(a, b) => CondSigns(a); CondSigns(b); ConnectiveSigns(a, "AND", b);
    case Or(a, b) => CondSigns(a); CondSigns(b); ConnectiveSigns(a, "OR", b);
    case Not(a) => CondSigns(a); NotSigns(a);
  }

  /** A comparison, possibly behind `prefix`, whose text is `left op right` for a
      one-character `op`, compares just that. */
  lemma {:induction false} CompareDecodes(c: Cond, prefix: string, left: string, op: Comparison, right: string)
    requires CondOk(c) && c.Compare?
    requires op.Eq? || op.Lt?
    requires NoSign(left) && NoSign(right) && NoSign(prefix)
    requires prefix + NCond(c) == left + CmpText(op) + right
    ensures c.cmp == op && prefix + NExpr(c.lhs) == left && NExpr(c.rhs) == right
  {
    var l, m, r := NExpr(c.lhs), CmpText(c.cmp), NExpr(c.rhs);
    CompareNorm(c.cmp, c.lhs, c.rhs);
    ExprNoSign(c.lhs);
    ExprNoSign(c.rhs);
    CmpSigns(c.cmp);
    CmpSigns(op);
    assert prefix + NCond(c) == (prefix + l) + m + r;
    SplitAtSign(prefix + l, m, r, left, CmpText(op), right);
    SignsAround("", m, r);
    SignsAround("", CmpText(op), right);
    assert "" + m + r == m + r && "" + CmpText(op) + right == CmpText(op) + right;
    assert |m| == 1 && m[0] == (m + r)[0] && m == [m[0]];
    assert r == (m + r)[1..] && right == (CmpText(op) + right)[1..];
    SameSign(c.cmp, op);
  }

  lemma {:induction false} SameSign(a: Comparison, b: Comparison)
    requires CmpText(a) == CmpText(b)
    ensures a == b
  {
    assert CmpText(a)[0] == CmpText(b)[0];
  }

  lemma {:induction false} NotParens(c: Cond)
    requires !c.Compare?
    ensures |NCond(Not(c))| > 3
    ensures NCond(Not(c))[0] == 'N' && NCond(Not(c))[3] == '('
    ensures forall k :: 0 <= k <= 3 ==> !IsCmpChar(NCond(Not(c))[k])
  {
    NotNorm(c);
    ParensNorm(PCond(c));
  }

  /** A condition whose text is one comparison of `left` and `right` is that comparison,
      or its negation with the NOT taken for part of `left`. */
  lemma {:induction false} ComparisonDecodes(c: Cond, left: string, op: Comparison, right: string)
    requires CondOk(c)
    requires op.Eq? || op.Lt?
    requires NoSign(left) && NoSign(right)
    requires |left| > 3 && left[3] == '(' ==> left[0] != 'N'
    requires NCond(c) == left + CmpText(op) + right
    ensures
      || (c.Compare? && c.cmp == op && NExpr(c.lhs) == left && NExpr(c.rhs) == right)
      || (c.Not? && c.c.Compare? && c.c.cmp == op
          && "NOT" + NExpr(c.c.lhs) == left && NExpr(c.c.rhs) == right && left[0] == 'N')
  {
    CondSigns(c);
    SignsAround(left, CmpText(op), right);
    CmpSigns(op);
    if c.Compare? {
      assert "" + NCond(c) == NCond(c);
      CompareDecodes(c, "", left, op, right);
      assert "" + NExpr(c.lhs) == NExpr(c.lhs);
    } else if c.Not? {
      NotNorm(c.c);
      FirstSign(left, CmpText(op), right);
      if c.c.Compare? {
        CompareDecodes(c.c, "NOT", left, op, right);
      } else {
        NotParens(c.c);
      }
    }
  }

  // ---------------------------------------------- the approved ON and HAVING

  predicate EqualColumns(c: Cond, a: string, b: string) {
    && c.Compare? && c.cmp.Eq?
    && ColumnIs(c.lhs, a, "PRODUCTID") && ColumnIs(c.rhs, b, "PRODUCTID")
  }

  predicate PlainJoin(on: Cond, p: string, i: string) {
    EqualColumns(on, p, i) || EqualColumns(on, i, p)
  }

  /** `NOT x.ProductID = y.ProductID` where NOT and x together spell alias `a`, and y is `b`. */
  predicate NegatedJoin(on: Cond, a: string, b: string) {
    && on.Not? && on.c.Compare? && on.c.lhs.Column? && on.c.lhs.table.Some?
    && "NOT" + on.c.lhs.table.value.Key() == a
    && EqualColumns(on.c, on.c.lhs.table.value.Key(), b)
  }

  lemma {:induction false} ColumnWords()
    ensures WordText("PRODUCTID") && WordText("QUANTITY") && WordText("SAFETYSTOCKLEVEL") && WordText("NAME")
  {
  }

  function JoinText(a: string, b: string, id: string): string {
    (a + ['.'] + id) + "=" + (b + ['.'] + id)
  }

  lemma {:induction false} JoinForward(on: Cond, a: string, b: string, id: string)
    requires CondOk(on)
    requires WordText(a) && WordText(b) && WordText(id)
    requires NCond(on) == JoinText(a, b, id)
    ensures
      || (on.Compare? && on.cmp.Eq? && ColumnIs(on.lhs, a, id) && ColumnIs(on.rhs, b, id))
      || (on.Not? && on.c.Compare? && on.c.cmp.Eq?
          && "NOT" + NExpr(on.c.lhs) == a + ['.'] + id && ColumnIs(on.c.rhs, b, id))
  {
    var left, right := a + ['.'] + id, b + ['.'] + id;
    assert Lacks(left, '(') && (|left| > 3 ==> left[3] in left);
    ComparisonDecodes(on, left, Eq, right);
    if on.Compare? {
      ColumnDecodes(on.lhs, a, id);
      ColumnDecodes(on.rhs, b, id);
    } else {
      ColumnDecodes(on.c.rhs, b, id);
    }
  }

  lemma {:induction false} NegatedColumn(e: Expr, a: string, id: string)
    requires ExprOk(e) && WordText(a) && WordText(id)
    requires "NOT" + NExpr(e) == a + ['.'] + id
    ensures e.Column? && e.table.Some? && e.column.Key() == id
    ensures "NOT" + e.table.value.Key() == a
  {
    var text := a + ['.'] + id;
    FirstNotDot(e);
    assert text[|a|] == '.' && text[3] == NExpr(e)[0] && text[0] == 'N' && text[1] == 'O' && text[2] == 'T';
    assert |a| > 3;
    var rest := a[3..];
    assert forall c <- rest :: c in a;
    assert NExpr(e) == ("NOT" + NExpr(e))[3..];
    assert text[3..] == rest + ['.'] + id;
    ColumnDecodes(e, rest, id);
    assert a == "NOT" + rest;
  }

  lemma {:induction false} FirstNotDot(e: Expr)
    requires ExprOk(e)
    ensures NExpr(e) != "" && NExpr(e)[0] != '.'
  {
    match e
    case Column(None, c) => NameNorm(c); KeyWord(c); assert c.Key()[0] in c.Key();
    case Column(Some(t), c) => ColumnNorm(t, c); assert t.Key()[0] in t.Key();
    case Number(n) => NumberNorm(n); assert NExpr(e)[0] in NExpr(e);
    case Call(f, a) => CallNorm(f, a); FnChars(f); assert FnText(f)[0] in FnText(f);
    case Arith(op, l, r) => ArithNorm(op, l, r); ParensNorm(PExpr(l)); FirstNotDot(l);
  }

  lemma {:induction false} JoinBackward(c: Cond, prefix: string, a: string, b: string, id: string)
    requires CondOk(c) && c.Compare? && c.cmp.Eq?
    requires ColumnIs(c.lhs, a, id) && ColumnIs(c.rhs, b, id)
    ensures prefix + NCond(c) == JoinText(prefix + a, b, id)
  {
    CompareNorm(Eq, c.lhs, c.rhs);
    ColumnNorm(c.lhs.table.value, c.lhs.column);
    ColumnNorm(c.rhs.table.value, c.rhs.column);
    JoinPrefixed(prefix, a, b, id);
  }

  lemma {:induction false} JoinPrefixed(prefix: string, a: string, b: string, id: string)
    ensures prefix + JoinText(a, b, id) == JoinText(prefix + a, b, id)
  {
    assert prefix + (a + ['.'] + id) == prefix + a + ['.'] + id;
  }

  /** The text of the approved equality decodes to that equality, or to a glued NOT. */
  lemma {:induction false} JoinDecodes(on: Cond, a: string, b: string)
    requires CondOk(on)
    requires WordText(a) && WordText(b)
    ensures NCond(on) == JoinText(a, b, "PRODUCTID")
       <==> EqualColumns(on, a, b) || NegatedJoin(on, a, b)
  {
    ColumnWords();
    if NCond(on) == JoinText(a, b, "PRODUCTID") {
      JoinForward(on, a, b, "PRODUCTID");
      if on.Not? { NegatedColumn(on.c.lhs, a, "PRODUCTID"); }
    }
    if EqualColumns(on, a, b) {
      JoinBackward(on, "", a, b, "PRODUCTID");
      assert "" + NCond(on) == NCond(on) && "" + a == a;
    }
    if NegatedJoin(on, a, b) {
      NotNorm(on.c);
      JoinBackward(on.c, "NOT", on.c.lhs.table.value.Key(), b, "PRODUCTID");
    }
  }

  predicate BelowSafetyStock(c: Cond, p: string, i: string) {
    && c.Compare? && c.cmp.Lt?
    && SumOf(c.lhs, i, "QUANTITY")
    && ColumnIs(c.rhs, p, "SAFETYSTOCKLEVEL")
  }

  function HavingText(p: string, i: string): string {
    SumText(i, "QUANTITY") + "<" + (p + ['.'] + "SAFETYSTOCKLEVEL")
  }

  lemma {:induction false} HavingDecodes(c: Cond, p: string, i: string)
    requires CondOk(c)
    requires WordText(p) && WordText(i)
    ensures NCond(c) == HavingText(p, i) <==> BelowSafetyStock(c, p, i)
  {
    ColumnWords();
    HavingDecodesAs(c, p, i, "QUANTITY", "SAFETYSTOCKLEVEL");
  }

  lemma {:induction false} HavingDecodesAs(c: Cond, p: string, i: string, qty: string, safety: string)
    requires CondOk(c)
    requires WordText(p) && WordText(i) && WordText(qty) && WordText(safety)
    ensures NCond(c) == SumText(i, qty) + "<" + (p + ['.'] + safety)
       <==> c.Compare? && c.cmp.Lt? && SumOf(c.lhs, i, qty) && ColumnIs(c.rhs, p, safety)
  {
    var left, right := SumText(i, qty), p + ['.'] + safety;
    assert left[0] == 'S';
    if NCond(c) == left + "<" + right {
      ComparisonDecodes(c, left, Lt, right);
    }
    if c.Compare? { HavingParts(c, p, i, qty, safety); }
  }

  lemma {:induction false} HavingParts(c: Cond, p: string, i: string, qty: string, safety: string)
    requires CondOk(c) && c.Compare?
    requires WordText(p) && WordText(i) && WordText(qty) && WordText(safety)
    ensures NCond(c) == NExpr(c.lhs) + CmpText(c.cmp) + NExpr(c.rhs)
    ensures NExpr(c.lhs) == SumText(i, qty) <==> SumOf(c.lhs, i, qty)
    ensures NExpr(c.rhs) == p + ['.'] + safety <==> ColumnIs(c.rhs, p, safety)
  {
    CompareNorm(c.cmp, c.lhs, c.rhs);
    SumDecodes(c.lhs, i, qty);
    ColumnDecodes(c.rhs, p, safety);
  }
}
