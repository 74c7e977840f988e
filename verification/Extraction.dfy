/** What the guardrail cuts out of a printed statement, clause by clause. */
module Extraction {
  import opened Text
  import opened SqlAst
  import opened Printed
  import opened Scanning
  import opened Sections
  import opened Decoding
  import opened Clauses
  import G = Guardrail

  // --------------------------------------------------------------- cutting

  /** Nothing, or a gap and a keyword of `stops`. */
  predicate Bounded(after: seq<Token>, stops: set<string>) {
    after == [] || (|after| >= 2 && after[0] == SP && G.Stops(after[1], stops))
  }

  function Edge(after: seq<Token>): seq<Token> { if after == [] then [] else [SP] }

  lemma {:induction false} UpToEdge(body: seq<Token>, after: seq<Token>, stops: set<string>)
    requires Without(body, stops) && Bounded(after, stops)
    ensures G.UpTo(body + after, stops) == body + Edge(after)
  {
    UpToSkips(body, after, stops);
    if after != [] { assert after[1..][0] == after[1]; }
  }

  lemma {:induction false} NormEdge(body: seq<Token>, after: seq<Token>)
    ensures NormTokens(body + Edge(after)) == NormTokens(body)
  {
    NormTokensConcat(body, Edge(after));
    NormOne(SP);
  }

  /** Normalising a clause forgets the white space around it. */
  lemma {:induction false} ClauseNorm(body: seq<Token>, after: seq<Token>)
    requires forall t <- body :: TokenOk(t)
    requires Without(body, G.CLAUSE_BOUNDARIES) && Bounded(after, G.CLAUSE_BOUNDARIES)
    ensures Normalize(G.ClauseText(body + after)) == NormTokens(body)
  {
    UpToEdge(body, after, G.CLAUSE_BOUNDARIES);
    NormStripped(body + Edge(after));
    NormEdge(body, after);
  }

  lemma {:induction false} NormStripped(ts: seq<Token>)
    requires forall t <- ts :: TokenOk(t)
    ensures Normalize(Strip(Unlex(ts))) == NormTokens(ts)
  {
    NormalizeStrip(Unlex(ts));
    NormalizeUnlex(ts);
  }

  /** A fragment has no white space at its ends. */
  lemma {:induction false} FragmentTrimmed(f: seq<Token>)
    requires Fragment(f)
    ensures Unlex(f) != "" && Trimmed(Unlex(f))
  {
    RawVisible(f[0]);
    RawVisible(f[|f| - 1]);
    UnlexLast(f);
  }

  lemma {:induction false} StripSpaces(x: string, tail: string)
    requires x != "" && Trimmed(x) && (tail == "" || tail == " ")
    ensures Strip(" " + x + tail) == x
  {
    assert (" " + x + tail)[1..] == x + tail;
    assert LStrip(x + tail) == x + tail;
    if tail != "" { assert (x + tail)[..|x + tail| - 1] == x; }
    assert RStrip(x) == x;
    assert x + "" == x;
  }

  /** The text of a fragment between gaps is found exactly. */
  lemma {:induction false} CutText(f: seq<Token>, after: seq<Token>, stops: set<string>)
    requires Fragment(f) && Without(f, stops) && Bounded(after, stops)
    ensures Strip(Unlex(G.UpTo([SP] + f + after, stops))) == Unlex(f)
  {
    UpToEdge([SP] + f, after, stops);
    UnlexConcat([SP] + f, Edge(after));
    UnlexConcat([SP], f);
    UnlexOne(SP);
    FragmentTrimmed(f);
    StripSpaces(Unlex(f), Unlex(Edge(after)));
  }

  lemma {:induction false} AfterFound(before: seq<Token>, kw: string, rest: seq<Token>)
    requires Without(before, {kw}) && Upper(kw) == kw
    ensures G.After(before + ([SP, Word(kw)] + rest), kw) == Some(rest)
  {
    assert before + ([SP, Word(kw)] + rest) == (before + [SP]) + ([Word(kw)] + rest);
    AfterSkips(before + [SP], [Word(kw)] + rest, kw);
    assert ([Word(kw)] + rest)[1..] == rest;
  }

  lemma {:induction false} AfterPairFound(before: seq<Token>, v: string, w: string, rest: seq<Token>)
    requires Without(before, {v}) && Upper(v) == v && Upper(w) == w
    ensures G.AfterPair(before + ([SP, Word(v), SP, Word(w)] + rest), v, w) == Some(rest)
  {
    var here := [Word(v), SP, Word(w)] + rest;
    assert before + ([SP, Word(v), SP, Word(w)] + rest) == (before + [SP]) + here;
    AfterPairSkips(before + [SP], here, v, w);
    assert here[3..] == rest;
  }

  lemma {:induction false} Boundaries()
    ensures "JOIN" in G.CLAUSE_BOUNDARIES && G.CLAUSE_BOUNDARIES <= STRUCTURE
    ensures {"GROUP", "HAVING", "ORDER"} <= G.CLAUSE_BOUNDARIES
    ensures {"WHERE"} !! G.CLAUSE_BOUNDARIES
    ensures Upper("GROUP") == "GROUP" && Upper("HAVING") == "HAVING" && Upper("ORDER") == "ORDER"
  {
  }

  lemma {:induction false} TailBounded(q: Query)
    ensures Bounded(POrderBy(q.orderBy), G.CLAUSE_BOUNDARIES)
    ensures Bounded(PHaving(q.having) + POrderBy(q.orderBy), G.CLAUSE_BOUNDARIES)
  {
    Boundaries();
  }

  lemma {:induction false} TailBoundedToo(q: Query)
    ensures Bounded(PGroupBy(q.groupBy) + (PHaving(q.having) + POrderBy(q.orderBy)), G.CLAUSE_BOUNDARIES)
  {
    TailBounded(q);
    Boundaries();
    if q.groupBy == [] {
      assert [] + (PHaving(q.having) + POrderBy(q.orderBy)) == PHaving(q.having) + POrderBy(q.orderBy);
    }
  }

  // ---------------------------------------------------------------- HAVING

  lemma {:induction false} BeforeHavingFree(q: Query)
    requires WellFormed(q)
    ensures Without(PUpToFrom(q) + PFrom(q) + PWhere(q.where) + PGroupBy(q.groupBy), {"HAVING"})
    ensures Without(POrderBy(q.orderBy), {"HAVING"})
  {
    FrontOnly(q);
    TailSections(q);
    var front := PUpToFrom(q) + PFrom(q);
    OnlyConcat(front, PWhere(q.where), FRONT_WORDS, {"WHERE"});
    OnlyConcat(front + PWhere(q.where), PGroupBy(q.groupBy), FRONT_WORDS + {"WHERE"}, {"GROUP", "BY"});
    NoHavingBefore();
    OnlyAvoids(front + PWhere(q.where) + PGroupBy(q.groupBy), FRONT_WORDS + {"WHERE"} + {"GROUP", "BY"}, {"HAVING"});
    OnlyAvoids(POrderBy(q.orderBy), {"ORDER", "BY", "ASC", "DESC"}, {"HAVING"});
  }

  lemma {:induction false} NoHavingBefore()
    ensures {"HAVING"} !! FRONT_WORDS + {"WHERE"} + {"GROUP", "BY"} && {"HAVING"} <= STRUCTURE
  {
    NoHavingInFront();
  }

  lemma {:induction false} NoHavingInFront()
    ensures {"HAVING"} !! FRONT_WORDS
  {
  }

  lemma {:induction false} CondClauseNorm(c: Cond, after: seq<Token>)
    requires CondOk(c) && Bounded(after, G.CLAUSE_BOUNDARIES)
    ensures Normalize(G.ClauseText([SP] + PCond(c) + after)) == NCond(c)
  {
    CondInner(c);
    Boundaries();
    OnlyAvoids(PCond(c), {}, G.CLAUSE_BOUNDARIES);
    ClauseNorm([SP] + PCond(c), after);
    NormTokensConcat([SP], PCond(c));
    NormOne(SP);
  }

  lemma {:induction false} HavingCut(before: seq<Token>, c: Cond, after: seq<Token>)
    requires CondOk(c) && Without(before, {"HAVING"}) && Bounded(after, G.CLAUSE_BOUNDARIES)
    ensures
      var having := G.After(before + (([SP, Word("HAVING"), SP] + PCond(c)) + after), "HAVING");
      having.Some? && Normalize(G.ClauseText(having.value)) == NCond(c)
  {
    var rest := [SP] + PCond(c) + after;
    assert Upper("HAVING") == "HAVING";
    assert ([SP, Word("HAVING"), SP] + PCond(c)) + after == [SP, Word("HAVING")] + rest;
    AfterFound(before, "HAVING", rest);
    CondClauseNorm(c, after);
  }

  lemma {:induction false} HavingTexts(p: string, i: string)
    ensures HavingText(p, i) == "SUM(" + i + ".QUANTITY)<" + p + ".SAFETYSTOCKLEVEL"
  {
    assert SumText(i, "QUANTITY") == "SUM(" + i + ".QUANTITY)";
    assert ['.'] + "SAFETYSTOCKLEVEL" == ".SAFETYSTOCKLEVEL";
    assert "<" + (p + ['.'] + "SAFETYSTOCKLEVEL") == "<" + p + ".SAFETYSTOCKLEVEL";
  }

  /** The HAVING check passes exactly for `SUM(i.Quantity) < p.SafetyStockLevel`. */
  lemma {:induction false} HavingRule(q: Query, p: string, i: string)
    requires WellFormed(q) && WordText(p) && WordText(i)
    ensures G.HavingApproved(Print(q), p, i)
        <==> q.having.Some? && BelowSafetyStock(q.having.value, p, i)
  {
    var before := PUpToFrom(q) + PFrom(q) + PWhere(q.where) + PGroupBy(q.groupBy);
    PrintAtGroup(q);
    BeforeHavingFree(q);
    if q.having.Some? {
      TailBounded(q);
      HavingCut(before, q.having.value, POrderBy(q.orderBy));
      HavingTexts(p, i);
      HavingDecodes(q.having.value, p, i);
    } else {
      AfterNone(before + (PHaving(q.having) + POrderBy(q.orderBy)), "HAVING");
    }
  }

  // -------------------------------------------------------------------- ON

  /** A statement with one join, up to its ON. */
  function BeforeOn(q: Query, j: Join): seq<Token> {
    PUpToFrom(q) + (([Word("FROM"), SP] + PTable(q.from)) + ([SP] + PKind(j.kind) + PTable(j.table)))
  }

  lemma {:induction false} KindOnFree(k: JoinKind)
    ensures Without([SP] + PKind(k), {"ON"})
  {
    KindSeparator(k);
    OnlyAvoids([SP] + PKind(k), {"JOIN", "INNER", "LEFT"}, {"ON"});
  }

  lemma {:induction false} FrontOnFree(q: Query)
    requires WellFormed(q)
    ensures Without(PUpToFrom(q), {"ON"})
  {
    FrontSection(q);
    OnlyAvoids(PUpToFrom(q), {"SELECT", "TOP", "AS"}, {"ON"});
  }

  lemma {:induction false} BeforeOnFree(q: Query, j: Join)
    requires WellFormed(q) && q.joins == [j]
    ensures Without(BeforeOn(q, j), {"ON"})
  {
    assert j in q.joins;
    FrontOnFree(q);
    TableOnFree(q.from);
    TableOnFree(j.table);
    KindOnFree(j.kind);
    assert Upper("FROM") == "FROM";
  }

  lemma {:induction false} TableOnFree(t: Table)
    requires TableOk(t)
    ensures Without(PTable(t), {"ON"})
  {
    TableSection(t);
    OnlyAvoids(PTable(t), {"AS"}, {"ON"});
  }

  lemma {:induction false} OnAlgebra(u: seq<Token>, f: seq<Token>, s: seq<Token>, k: seq<Token>, t: seq<Token>,
                                     on: seq<Token>, c: seq<Token>, none: seq<Token>, w: seq<Token>, rest: seq<Token>)
    requires none == []
    ensures u + (f + (s + (k + (t + (s + on + s) + c)) + none)) + w + rest
         == u + (f + (s + k + t)) + ((s + on) + ((s + c + w) + rest))
  {
    var x, y := s + k + t, (s + on) + (s + c);
    assert s + (k + (t + (s + on + s) + c)) + none == x + y;
  }

  lemma {:induction false} PrintAtOn(q: Query, j: Join)
    requires q.joins == [j]
    ensures Print(q) == BeforeOn(q, j)
      + ([SP, Word("ON")] + (([SP] + PCond(j.on) + PWhere(q.where))
                             + (PGroupBy(q.groupBy) + (PHaving(q.having) + POrderBy(q.orderBy)))))
  {
    var rest := PGroupBy(q.groupBy) + (PHaving(q.having) + POrderBy(q.orderBy));
    PrintAtGroup(q);
    Reassoc5(PUpToFrom(q) + PFrom(q) + PWhere(q.where), PGroupBy(q.groupBy), PHaving(q.having) + POrderBy(q.orderBy));
    assert q.joins[1..] == [];
    assert [SP] + [Word("ON")] + [SP] == [SP, Word("ON"), SP] && [SP] + [Word("ON")] == [SP, Word("ON")];
    OnAlgebra(PUpToFrom(q), [Word("FROM"), SP] + PTable(q.from), [SP], PKind(j.kind), PTable(j.table), [Word("ON")],
              PCond(j.on), PJoins([]), PWhere(q.where), rest);
  }

  lemma {:induction false} Reassoc5(a: seq<Token>, b: seq<Token>, c: seq<Token>)
    ensures a + b + c == a + (b + c)
  {
  }

  function WhereText(w: Option<Cond>): string { if w.None? then "" else "WHERE" + NCond(w.value) }

  lemma {:induction false} WhereNorm(w: Option<Cond>)
    ensures NormTokens(PWhere(w)) == WhereText(w)
  {
    if w.Some? {
      NormTokensConcat([SP, Word("WHERE"), SP], PCond(w.value));
      SpacedNorm(Word("WHERE"));
      assert Upper("WHERE") == "WHERE";
    }
  }

  lemma {:induction false} OnBody(on: Cond, w: Option<Cond>)
    requires CondOk(on) && (w.Some? ==> CondOk(w.value))
    ensures Without([SP] + PCond(on) + PWhere(w), G.CLAUSE_BOUNDARIES)
    ensures forall t <- [SP] + PCond(on) + PWhere(w) :: TokenOk(t)
  {
    CondInner(on);
    CondClause("WHERE", w);
    Boundaries();
    OnlyAvoids(PCond(on), {}, G.CLAUSE_BOUNDARIES);
    OnlyAvoids(PWhere(w), {"WHERE"}, G.CLAUSE_BOUNDARIES);
  }

  lemma {:induction false} OnBodyNorm(on: Cond, w: Option<Cond>)
    ensures NormTokens([SP] + PCond(on) + PWhere(w)) == NCond(on) + WhereText(w)
  {
    NormMiddle([SP], PCond(on), PWhere(w));
    NormOne(SP);
    WhereNorm(w);
  }

  lemma {:induction false} OnCut(q: Query, j: Join)
    requires WellFormed(q) && q.joins == [j]
    ensures
      var on := G.After(Print(q), "ON");
      on.Some? && Normalize(G.ClauseText(on.value)) == NCond(j.on) + WhereText(q.where)
  {
    assert j in q.joins;
    var body := [SP] + PCond(j.on) + PWhere(q.where);
    var after := PGroupBy(q.groupBy) + (PHaving(q.having) + POrderBy(q.orderBy));
    assert Upper("ON") == "ON";
    BeforeOnFree(q, j);
    PrintAtOn(q, j);
    AfterFound(BeforeOn(q, j), "ON", body + after);
    OnBody(j.on, q.where);
    OnBodyNorm(j.on, q.where);
    TailBoundedToo(q);
    ClauseNorm(body, after);
  }

  lemma {:induction false} JoinTexts(p: string, i: string)
    ensures JoinText(p, i, "PRODUCTID") == p + ".PRODUCTID=" + i + ".PRODUCTID"
  {
    assert ['.'] + "PRODUCTID" == ".PRODUCTID";
    assert (p + ['.'] + "PRODUCTID") + "=" == p + ".PRODUCTID=";
  }

  lemma {:induction false} JoinTextSigns(a: string, b: string)
    requires WordText(a) && WordText(b)
    ensures Signs(JoinText(a, b, "PRODUCTID")) == 1
  {
    ColumnWords();
    SignsAround(a + ['.'] + "PRODUCTID", "=", b + ['.'] + "PRODUCTID");
    assert "="[1..] == "";
  }

  /** The text of a WHERE betrays itself by a second comparison sign. */
  lemma {:induction false} WhereShows(on: Cond, w: Option<Cond>)
    requires CondOk(on) && (w.Some? ==> CondOk(w.value))
    ensures w.Some? ==> Signs(NCond(on) + WhereText(w)) >= 2
  {
    if w.Some? {
      CondSigns(on);
      CondSigns(w.value);
      SignsConcat(NCond(on), WhereText(w));
      SignsConcat("WHERE", NCond(w.value));
    }
  }

  predicate JoinAccepted(on: Cond, p: string, i: string) {
    PlainJoin(on, p, i) || NegatedJoin(on, p, i) || NegatedJoin(on, i, p)
  }

  /** The ON check passes exactly for the ProductID equality, either way round and possibly
      behind a NOT that an alias absorbs, with no WHERE. */
  lemma {:induction false} JoinRule(q: Query, j: Join, p: string, i: string)
    requires WellFormed(q) && q.joins == [j] && WordText(p) && WordText(i)
    ensures G.JoinApproved(Print(q), p, i) <==> q.where.None? && JoinAccepted(j.on, p, i)
  {
    assert j in q.joins;
    OnCut(q, j);
    JoinTexts(p, i);
    JoinTexts(i, p);
    JoinTextSigns(p, i);
    JoinTextSigns(i, p);
    WhereShows(j.on, q.where);
    JoinDecodes(j.on, p, i);
    JoinDecodes(j.on, i, p);
    assert NCond(j.on) + "" == NCond(j.on);
  }
}
