/** White space only separates: the guardrail gives two texts the same verdict when they
    differ only in what their gaps are made of. */
module Spacing {
  import opened Text
  import opened Guardrail
  import C = CommaSplit
  import V = Vocabulary
  import K = Clauses
  import L = ListClauses

  function One(t: Token): Token { if t.Gap? then SP else t }

  /** Every gap made a single space. */
  function Squash(ts: seq<Token>): (r: seq<Token>)
    ensures |r| == |ts| && forall k :: 0 <= k < |ts| ==> r[k] == One(ts[k])
  {
    seq(|ts|, k requires 0 <= k < |ts| => One(ts[k]))
  }

  lemma {:induction false} SquashFrom(ts: seq<Token>, k: nat)
    requires k <= |ts|
    ensures Squash(ts)[k..] == Squash(ts[k..]) && Squash(ts)[..k] == Squash(ts[..k])
  {
  }

  lemma {:induction false} SquashCons(t: Token, ts: seq<Token>)
    ensures Squash([t] + ts) == [One(t)] + Squash(ts)
  {
  }

  lemma {:induction false} SquashConcat(a: seq<Token>, b: seq<Token>)
    ensures Squash(a + b) == Squash(a) + Squash(b)
  {
  }

  function SquashHit(h: Hit): Hit {
    match h case Miss => Miss case Hit(text, rest) => Hit(text, Squash(rest))
  }

  // ---------------------------------------------------------------- patterns

  lemma {:induction false} Skips(ts: seq<Token>, c: char)
    ensures SkipGap(Squash(ts)) == Squash(SkipGap(ts))
    ensures SkipPunct(Squash(ts), c) == Squash(SkipPunct(ts, c))
  {
    if ts != [] { SquashFrom(ts, 1); }
  }

  lemma {:induction false} Ident(ts: seq<Token>)
    ensures IdentAt(Squash(ts)) == SquashHit(IdentAt(ts))
  {
    Skips(ts, '[');
    var t := SkipPunct(ts, '[');
    if t != [] {
      SquashFrom(t, 1);
      Skips(t[1..], ']');
    }
  }

  lemma {:induction false} Schema(ts: seq<Token>)
    ensures SkipSchema(Squash(ts)) == Squash(SkipSchema(ts))
  {
    Ident(ts);
    var h := IdentAt(ts);
    if h.Hit? && h.rest != [] { SquashFrom(h.rest, 1); }
  }

  lemma {:induction false} As(ts: seq<Token>)
    ensures AsAt(Squash(ts)) == SquashHit(AsAt(ts))
  {
    if |ts| >= 2 {
      SquashFrom(ts, 2);
      Ident(ts[2..]);
    }
  }

  lemma {:induction false} TableName(ts: seq<Token>)
    ensures TableNameAt(Squash(ts)) == SquashHit(TableNameAt(ts))
  {
    Schema(ts);
    Ident(SkipSchema(ts));
    Ident(ts);
  }

  /** `AS name` after a gap. */
  function AsAfterGap(ts: seq<Token>): Hit { if ts != [] && ts[0].Gap? then AsAt(ts[1..]) else Miss }

  lemma {:induction false} AsLater(ts: seq<Token>)
    ensures AsAfterGap(Squash(ts)) == SquashHit(AsAfterGap(ts))
  {
    if ts != [] && ts[0].Gap? {
      SquashFrom(ts, 1);
      As(ts[1..]);
    }
  }

  lemma {:induction false} RefParts(ts: seq<Token>)
    requires RefStarts(ts) && TableNameAt(ts[2..]).Hit?
    ensures
      var h := TableNameAt(ts[2..]);
      RefAt(ts) == match AsAfterGap(h.rest)
        case Miss => Found(TableRef(Upper(h.text), None), |ts| - |h.rest|)
        case Hit(alias, after) => Found(TableRef(Upper(h.text), Some(Upper(alias))), |ts| - |after|)
  {
  }

  lemma {:induction false} Ref(ts: seq<Token>)
    ensures RefAt(Squash(ts)) == RefAt(ts)
  {
    if RefStarts(ts) {
      SquashFrom(ts, 2);
      TableName(ts[2..]);
      var h := TableNameAt(ts[2..]);
      if h.Hit? {
        RefParts(ts);
        RefParts(Squash(ts));
        AsLater(h.rest);
      }
    }
  }

  lemma {:induction false} AllRefs(ts: seq<Token>)
    ensures RefsAt(Squash(ts)) == RefsAt(ts)
  {
    if ts != [] {
      Ref(ts);
      SquashFrom(ts, 1);
      AllRefs(ts[1..]);
    }
  }

  lemma {:induction false} AllAliases(ts: seq<Token>)
    ensures AliasesAt(Squash(ts)) == AliasesAt(ts)
  {
    if ts != [] {
      As(ts);
      SquashFrom(ts, 1);
      AllAliases(ts[1..]);
    }
  }

  lemma {:induction false} Counts(ts: seq<Token>, v: string, w: string)
    ensures CountKw(Squash(ts), v) == CountKw(ts, v)
    ensures CountPair(Squash(ts), v, w) == CountPair(ts, v, w)
  {
    if ts != [] {
      SquashFrom(ts, 1);
      Counts(ts[1..], v, w);
    }
  }

  function SquashAfter(o: Option<seq<Token>>): Option<seq<Token>> {
    match o case None => None case Some(ts) => Some(Squash(ts))
  }

  lemma {:induction false} Searches(ts: seq<Token>, v: string, w: string)
    ensures After(Squash(ts), v) == SquashAfter(After(ts, v))
    ensures AfterPair(Squash(ts), v, w) == SquashAfter(AfterPair(ts, v, w))
  {
    if ts != [] {
      SquashFrom(ts, 1);
      if |ts| >= 3 { SquashFrom(ts, 3); }
      Searches(ts[1..], v, w);
    }
  }

  lemma {:induction false} UpTos(ts: seq<Token>, stops: set<string>)
    ensures UpTo(Squash(ts), stops) == Squash(UpTo(ts, stops))
  {
    if ts != [] && !Stops(ts[0], stops) {
      SquashFrom(ts, 1);
      UpTos(ts[1..], stops);
      SquashCons(ts[0], UpTo(ts[1..], stops));
    }
  }

  function SquashTop(o: Option<Top>): Option<Top> {
    match o case None => None case Some(t) => Some(Top(t.n, Squash(t.rest)))
  }

  lemma {:induction false} CountedTop(w: string, after: seq<Token>)
    ensures TopCount(w, Squash(after)) == SquashTop(TopCount(w, after))
  {
    Skips(after, ')');
    Skips(SkipGap(after), ')');
    SquashCons(Word(w[|LeadingDigits(w)|..]), after);
  }

  /** The count after a word TOP of its own. */
  function SpacedTop(t: seq<Token>): Option<Top> {
    var u := SkipGap(SkipPunct(SkipGap(t), '('));
    if u != [] && u[0].Word? then TopCount(u[0].text, u[1..]) else None
  }

  lemma {:induction false} SpacedTops(t: seq<Token>)
    ensures SpacedTop(Squash(t)) == SquashTop(SpacedTop(t))
  {
    Skips(t, '(');
    Skips(SkipGap(t), '(');
    Skips(SkipPunct(SkipGap(t), '('), '(');
    var u := SkipGap(SkipPunct(SkipGap(t), '('));
    if u != [] && u[0].Word? {
      SquashFrom(u, 1);
      CountedTop(u[0].text, u[1..]);
    }
  }

  /** What follows `SELECT `, from the word that is or starts with TOP. */
  function WordTop(w: string, after: seq<Token>): Option<Top> {
    if Upper(w) == "TOP" then SpacedTop(after)
    else if |w| > 3 && Upper(w[..3]) == "TOP" then TopCount(w[3..], after)
    else None
  }

  lemma {:induction false} WordTops(w: string, after: seq<Token>)
    ensures WordTop(w, Squash(after)) == SquashTop(WordTop(w, after))
  {
    SpacedTops(after);
    if |w| > 3 { CountedTop(w[3..], after); }
  }

  lemma {:induction false} TopByWord(ts: seq<Token>)
    ensures var t := SkipGap(ts);
      TopAt(ts) == if |t| >= 3 && IsKw(t[0], "SELECT") && t[1].Gap? && t[2].Word? then WordTop(t[2].text, t[3..]) else None
  {
  }

  lemma {:induction false} Tops(ts: seq<Token>)
    ensures TopAt(Squash(ts)) == SquashTop(TopAt(ts))
  {
    var t := SkipGap(ts);
    Skips(ts, '(');
    TopByWord(ts);
    TopByWord(Squash(ts));
    if |t| >= 3 && t[2].Word? {
      SquashFrom(t, 3);
      WordTops(t[2].text, t[3..]);
    }
  }

  lemma {:induction false} Ascends(ts: seq<Token>)
    ensures ProductIdAsc(Squash(ts)) == ProductIdAsc(ts)
  {
    Ident(ts);
  }

  lemma {:induction false} KeyAfterBy(ts: seq<Token>)
    ensures K.KeyMatches(Squash(ts)) == K.KeyMatches(ts)
  {
    Ascends(ts);
    Ident(ts);
    var h := IdentAt(ts);
    if h.Hit? && h.rest != [] {
      SquashFrom(h.rest, 1);
      Ascends(h.rest[1..]);
    }
  }

  lemma {:induction false} FirstKeyHere(ts: seq<Token>)
    ensures FirstKeyAt(Squash(ts)) == FirstKeyAt(ts)
  {
    if |ts| >= 4 {
      SquashFrom(ts, 4);
      KeyAfterBy(ts[4..]);
    }
  }

  lemma {:induction false} FirstKeyAnywhere(ts: seq<Token>)
    ensures HasFirstKey(Squash(ts)) == HasFirstKey(ts)
  {
    if ts != [] {
      FirstKeyHere(ts);
      SquashFrom(ts, 1);
      FirstKeyAnywhere(ts[1..]);
    }
  }

  lemma {:induction false} WordRules(ts: seq<Token>, allowed: set<string>)
    ensures MentionsForbidden(Squash(ts)) == MentionsForbidden(ts)
    ensures IdentifiersApproved(Squash(ts), allowed) == IdentifiersApproved(ts, allowed)
  {
    assert forall t: Token :: t.Word? ==> (t in Squash(ts) <==> t in ts);
  }

  /** Rules 4 to 12 up to the clause contents. */
  lemma {:induction false} SelectKept(ts: seq<Token>)
    ensures SingleSelect(Squash(ts)) == SingleSelect(ts)
  {
    Counts(ts, "SELECT", "SELECT");
    Skips(ts, '(');
    WordRules(ts, {});
    Tops(ts);
  }

  // ------------------------------------------------------- stripping tokens

  function DropLastGap(ts: seq<Token>): seq<Token> {
    if ts != [] && ts[|ts| - 1].Gap? then ts[..|ts| - 1] else ts
  }

  /** Tokens without a gap at either end. */
  function Inside(ts: seq<Token>): seq<Token> { DropLastGap(SkipGap(ts)) }

  lemma {:induction false} LStripRun(g: string, x: string)
    requires forall c <- g :: IsSpace(c)
    ensures LStrip(g + x) == LStrip(x)
  {
    if g == "" { assert g + x == x; }
    else {
      assert g[0] in g;
      assert (g + x)[1..] == g[1..] + x;
      assert forall c <- g[1..] :: c in g;
      LStripRun(g[1..], x);
    }
  }

  lemma {:induction false} RStripRun(x: string, g: string)
    requires forall c <- g :: IsSpace(c)
    ensures RStrip(x + g) == RStrip(x)
  {
    if g == "" { assert x + g == x; }
    else {
      assert g[|g| - 1] in g;
      assert (x + g)[..|x + g| - 1] == x + g[..|g| - 1];
      assert forall c <- g[..|g| - 1] :: c in g;
      RStripRun(x, g[..|g| - 1]);
    }
  }

  lemma {:induction false} LStripTokens(ts: seq<Token>)
    requires Separated(ts)
    ensures LStrip(Unlex(ts)) == Unlex(SkipGap(ts))
  {
    if ts != [] && ts[0].Gap? {
      LStripRun(Raw(ts[0]), Unlex(ts[1..]));
      if |ts| > 1 { assert !Mergeable(ts[0], ts[1]); VisibleStart(ts[1..]); }
    } else if ts != [] {
      VisibleStart(ts);
    }
  }

  lemma {:induction false} VisibleStart(ts: seq<Token>)
    requires ts != [] && TokenOk(ts[0]) && !ts[0].Gap?
    ensures LStrip(Unlex(ts)) == Unlex(ts)
  {
    RawVisible(ts[0]);
  }

  lemma {:induction false} VisibleEnd(ts: seq<Token>)
    requires ts != [] && TokenOk(ts[|ts| - 1]) && !ts[|ts| - 1].Gap?
    ensures RStrip(Unlex(ts)) == Unlex(ts)
  {
    UnlexLast(ts);
    RawVisible(ts[|ts| - 1]);
  }

  lemma {:induction false} RStripTokens(ts: seq<Token>)
    requires Separated(ts)
    ensures RStrip(Unlex(ts)) == Unlex(DropLastGap(ts))
  {
    var n := |ts|;
    if n > 0 && ts[n - 1].Gap? {
      UnlexLast(ts);
      RStripRun(Unlex(ts[..n - 1]), Raw(ts[n - 1]));
      if n > 1 { assert !Mergeable(ts[n - 2], ts[n - 1]); VisibleEnd(ts[..n - 1]); }
    } else if n > 0 {
      VisibleEnd(ts);
    }
  }

  lemma {:induction false} SkipGapSeparated(ts: seq<Token>)
    requires Separated(ts)
    ensures Separated(SkipGap(ts)) && Separated(DropLastGap(ts))
  {
    if ts != [] {
      SeparatedSlice(ts, 1, |ts|);
      SeparatedSlice(ts, 0, |ts| - 1);
      assert ts[0..|ts| - 1] == ts[..|ts| - 1];
    }
  }

  /** Stripping a text strips the gaps at its ends. */
  lemma {:induction false} StripTokens(ts: seq<Token>)
    requires Separated(ts)
    ensures Strip(Unlex(ts)) == Unlex(Inside(ts)) && Separated(Inside(ts))
  {
    LStripTokens(ts);
    SkipGapSeparated(ts);
    RStripTokens(SkipGap(ts));
    SkipGapSeparated(SkipGap(ts));
  }

  lemma {:induction false} SquashInside(ts: seq<Token>)
    ensures Inside(Squash(ts)) == Squash(Inside(ts))
  {
    Skips(ts, '(');
    var s := SkipGap(ts);
    if s != [] { SquashFrom(s, |s| - 1); }
  }

  lemma {:induction false} SquashSeparated(ts: seq<Token>)
    requires Separated(ts)
    ensures Separated(Squash(ts))
  {
  }

  // --------------------------------------------------------- texts that agree

  /** The same tokens, up to the make-up of gaps. */
  predicate Alike(a: string, b: string) { Squash(Lex(a)) == Squash(Lex(b)) }

  lemma {:induction false} AlikeTokens(ts: seq<Token>)
    requires Separated(ts)
    ensures Alike(Unlex(ts), Unlex(Squash(ts)))
  {
    SquashSeparated(ts);
    LexUnlex(ts);
    LexUnlex(Squash(ts));
    assert Squash(Squash(ts)) == Squash(ts);
  }

  lemma {:induction false} AlikeStripped(ts: seq<Token>)
    requires Separated(ts)
    ensures Alike(Strip(Unlex(ts)), Strip(Unlex(Squash(ts))))
  {
    StripTokens(ts);
    SquashSeparated(ts);
    StripTokens(Squash(ts));
    SquashInside(ts);
    AlikeTokens(Inside(ts));
  }

  lemma {:induction false} NormSquash(ts: seq<Token>)
    ensures NormTokens(Squash(ts)) == NormTokens(ts)
  {
    if ts != [] {
      SquashFrom(ts, 1);
      NormSquash(ts[1..]);
    }
  }

  lemma {:induction false} NormLex(s: string)
    ensures Normalize(s) == NormTokens(Lex(s))
  {
    LexSpells(s);
    NormalizeUnlex(Lex(s));
  }

  lemma {:induction false} AlikeNormal(a: string, b: string)
    requires Alike(a, b)
    ensures Normalize(a) == Normalize(b)
  {
    NormLex(a);
    NormLex(b);
    NormSquash(Lex(a));
    NormSquash(Lex(b));
  }

  function SquashItem(o: Option<SelectItem>): Option<SelectItem> {
    match o case None => None case Some(x) => Some(SelectItem(Squash(x.expr), x.alias))
  }

  lemma {:induction false} AliasKept(ts: seq<Token>)
    ensures ItemAlias(Squash(ts)) == ItemAlias(ts)
  {
    Skips(ts, '(');
    Ident(SkipGap(ts));
    var h := IdentAt(SkipGap(ts));
    if h.Hit? { Skips(h.rest, '('); }
  }

  lemma {:induction false} ParseKept(item: seq<Token>, at: nat)
    ensures ParseItem(Squash(item), at) == SquashItem(ParseItem(item, at))
    decreases |item| - at
  {
    if at < |item| {
      SquashFrom(item, at + 1);
      SquashFrom(item, at);
      AliasKept(item[at + 1..]);
      ParseKept(item, at + 1);
    }
  }

  lemma {:induction false} ParsedExpr(item: seq<Token>, at: nat)
    requires Separated(item)
    ensures ParseItem(item, at).Some? ==> Separated(ParseItem(item, at).value.expr)
    decreases |item| - at
  {
    if at < |item| {
      SeparatedSlice(item, 0, at);
      assert item[0..at] == item[..at];
      ParsedExpr(item, at + 1);
    }
  }

  lemma {:induction false} SquashedNormal(x: seq<Token>)
    requires Separated(x)
    ensures Normalize(Unlex(x)) == NormTokens(Squash(x))
  {
    NormalizeUnlex(x);
    NormSquash(x);
  }

  lemma {:induction false} AlikeItem(a: string, b: string, p: string, i: string)
    requires Alike(a, b)
    ensures SelectItemApproved(a, p, i) == SelectItemApproved(b, p, i)
    ensures ItemKey(a) == ItemKey(b)
  {
    LexSpells(a);
    LexSpells(b);
    ParseKept(Lex(a), 0);
    ParseKept(Lex(b), 0);
    ParsedExpr(Lex(a), 0);
    ParsedExpr(Lex(b), 0);
    var x, y := ParseItem(Lex(a), 0), ParseItem(Lex(b), 0);
    if x.Some? && y.Some? {
      SquashedNormal(x.value.expr);
      SquashedNormal(y.value.expr);
    }
  }

  lemma {:induction false} AlikeKey(a: string, b: string, p: string)
    requires Alike(a, b)
    ensures GroupKeyApproved(a, p) == GroupKeyApproved(b, p)
    ensures GroupColumn(a) == GroupColumn(b)
  {
    AlikeNormal(a, b);
  }

  // ------------------------------------------------------------------- lists

  predicate AlikeAll(xs: seq<string>, ys: seq<string>) {
    |xs| == |ys| && forall k :: 0 <= k < |xs| ==> Alike(xs[k], ys[k])
  }

  lemma {:induction false} AlikeItems(xs: seq<string>, ys: seq<string>, p: string, i: string)
    requires AlikeAll(xs, ys) && SelectListApproved(xs, p, i)
    ensures SelectListApproved(ys, p, i)
  {
    forall k | 0 <= k < |ys| ensures SelectItemApproved(ys[k], p, i) && ItemKey(xs[k]) == ItemKey(ys[k]) {
      assert xs[k] in xs;
      AlikeItem(xs[k], ys[k], p, i);
    }
  }

  lemma {:induction false} AlikeKeys(xs: seq<string>, ys: seq<string>, p: string)
    requires AlikeAll(xs, ys) && GroupApproved(xs, p)
    ensures GroupApproved(ys, p)
  {
    forall k | 0 <= k < |ys| ensures GroupKeyApproved(ys[k], p) && GroupColumn(xs[k]) == GroupColumn(ys[k]) {
      assert xs[k] in xs;
      AlikeKey(xs[k], ys[k], p);
    }
  }

  /** The comma splitter on tokens. */
  function TokenPieces(ts: seq<Token>, depth: int, current: seq<Token>): seq<seq<Token>> {
    if ts == [] then [current]
    else if ts[0] == Punct('(') then TokenPieces(ts[1..], depth + 1, current + [ts[0]])
    else if ts[0] == Punct(')') then TokenPieces(ts[1..], depth - 1, current + [ts[0]])
    else if ts[0] == Punct(',') && depth == 0 then [current] + TokenPieces(ts[1..], 0, [])
    else TokenPieces(ts[1..], depth, current + [ts[0]])
  }

  lemma {:induction false} RunAbsorbed(t: Token, rest: string, depth: int, current: string)
    requires TokenOk(t) && !t.Punct?
    ensures C.SplitFrom(Raw(t) + rest, depth, current) == C.SplitFrom(rest, depth, current + Raw(t))
  {
    L.NetPlain(Raw(t));
    L.NoCommas(Raw(t), depth);
    C.SplitAbsorbs(Raw(t), rest, depth, current);
  }

  lemma {:induction false} UnlexSnoc(current: seq<Token>, t: Token)
    ensures Unlex(current + [t]) == Unlex(current) + Raw(t)
  {
    UnlexConcat(current, [t]);
    UnlexOne(t);
  }

  lemma {:induction false} TextsCons(x: seq<Token>, xs: seq<seq<Token>>)
    ensures L.Texts([x] + xs) == [Unlex(x)] + L.Texts(xs)
  {
  }

  lemma {:induction false} PiecesSpell(ts: seq<Token>, depth: int, current: seq<Token>)
    requires forall t <- ts :: TokenOk(t)
    ensures C.SplitFrom(Unlex(ts), depth, Unlex(current)) == L.Texts(TokenPieces(ts, depth, current))
    decreases ts
  {
    if ts != [] {
      var t, rest := ts[0], Unlex(ts[1..]);
      assert t in ts && forall u <- ts[1..] :: u in ts;
      UnlexSnoc(current, t);
      if t.Punct? {
        assert ([t.c] + rest)[1..] == rest;
        if t.c == '(' { PiecesSpell(ts[1..], depth + 1, current + [t]); }
        else if t.c == ')' { PiecesSpell(ts[1..], depth - 1, current + [t]); }
        else if t.c == ',' && depth == 0 {
          PiecesSpell(ts[1..], 0, []);
          TextsCons(current, TokenPieces(ts[1..], 0, []));
        } else { PiecesSpell(ts[1..], depth, current + [t]); }
      } else {
        RunAbsorbed(t, rest, depth, Unlex(current));
        PiecesSpell(ts[1..], depth, current + [t]);
      }
    }
  }

  function SquashAll(xs: seq<seq<Token>>): (r: seq<seq<Token>>)
    ensures |r| == |xs| && forall k :: 0 <= k < |xs| ==> r[k] == Squash(xs[k])
  {
    seq(|xs|, k requires 0 <= k < |xs| => Squash(xs[k]))
  }

  lemma {:induction false} PiecesSquash(ts: seq<Token>, depth: int, current: seq<Token>)
    ensures TokenPieces(Squash(ts), depth, Squash(current)) == SquashAll(TokenPieces(ts, depth, current))
    decreases ts
  {
    if ts != [] {
      SquashFrom(ts, 1);
      SquashConcat(current, [ts[0]]);
      assert Squash([ts[0]]) == [One(ts[0])];
      if ts[0] == Punct('(') { PiecesSquash(ts[1..], depth + 1, current + [ts[0]]); }
      else if ts[0] == Punct(')') { PiecesSquash(ts[1..], depth - 1, current + [ts[0]]); }
      else if ts[0] == Punct(',') && depth == 0 {
        assert Squash([]) == [];
        PiecesSquash(ts[1..], 0, []);
      } else { PiecesSquash(ts[1..], depth, current + [ts[0]]); }
    }
  }

  lemma {:induction false} PiecesSeparated(ts: seq<Token>, depth: int, current: seq<Token>)
    requires Separated(current + ts)
    ensures forall x <- TokenPieces(ts, depth, current) :: Separated(x)
    decreases ts
  {
    if ts == [] {
      assert current + ts == current;
    } else {
      assert current + ts == (current + [ts[0]]) + ts[1..];
      if ts[0] == Punct('(') { PiecesSeparated(ts[1..], depth + 1, current + [ts[0]]); }
      else if ts[0] == Punct(')') { PiecesSeparated(ts[1..], depth - 1, current + [ts[0]]); }
      else if ts[0] == Punct(',') && depth == 0 {
        SeparatedSlice(current + ts, 0, |current|);
        assert (current + ts)[0..|current|] == current;
        SeparatedSlice(current + ts, |current| + 1, |current + ts|);
        assert (current + ts)[|current| + 1..|current + ts|] == [] + ts[1..];
        PiecesSeparated(ts[1..], 0, []);
      } else { PiecesSeparated(ts[1..], depth, current + [ts[0]]); }
    }
  }

  lemma {:induction false} SplitPieces(ts: seq<Token>)
    requires Separated(ts)
    ensures C.Split(Unlex(ts)) == C.StripAll(L.Texts(TokenPieces(ts, 0, [])))
  {
    PiecesSpell(ts, 0, []);
  }

  /** Splitting a list is blind to the make-up of gaps. */
  lemma {:induction false} SplitAlike(ts: seq<Token>)
    requires Separated(ts)
    ensures AlikeAll(C.Split(Unlex(ts)), C.Split(Unlex(Squash(ts))))
  {
    var xs := TokenPieces(ts, 0, []);
    SquashSeparated(ts);
    SplitPieces(ts);
    SplitPieces(Squash(ts));
    assert Squash([]) == [];
    PiecesSquash(ts, 0, []);
    assert [] + ts == ts;
    PiecesSeparated(ts, 0, []);
    forall k | 0 <= k < |xs| ensures Alike(Strip(Unlex(xs[k])), Strip(Unlex(Squash(xs[k])))) {
      assert xs[k] in xs;
      AlikeStripped(xs[k]);
    }
  }

  // ----------------------------------------------------------------- clauses

  lemma {:induction false} UpToPrefix(ts: seq<Token>, stops: set<string>)
    ensures |UpTo(ts, stops)| <= |ts| && UpTo(ts, stops) == ts[..|UpTo(ts, stops)|]
  {
    if ts != [] && !Stops(ts[0], stops) { UpToPrefix(ts[1..], stops); }
  }

  lemma {:induction false} CutSeparated(ts: seq<Token>, stops: set<string>)
    requires Separated(ts)
    ensures Separated(UpTo(ts, stops))
  {
    UpToPrefix(ts, stops);
    SeparatedSlice(ts, 0, |UpTo(ts, stops)|);
    assert ts[0..|UpTo(ts, stops)|] == ts[..|UpTo(ts, stops)|];
  }

  lemma {:induction false} FoundSeparated(ts: seq<Token>, v: string, w: string)
    requires Separated(ts)
    ensures After(ts, v).Some? ==> Separated(After(ts, v).value)
    ensures AfterPair(ts, v, w).Some? ==> Separated(AfterPair(ts, v, w).value)
  {
    if ts != [] {
      SeparatedSlice(ts, 1, |ts|);
      if |ts| >= 3 { SeparatedSlice(ts, 3, |ts|); }
      FoundSeparated(ts[1..], v, w);
    }
  }

  lemma {:induction false} ClauseAlike(after: seq<Token>)
    requires Separated(after)
    ensures Alike(ClauseText(after), ClauseText(Squash(after)))
  {
    UpTos(after, CLAUSE_BOUNDARIES);
    CutSeparated(after, CLAUSE_BOUNDARIES);
    AlikeStripped(UpTo(after, CLAUSE_BOUNDARIES));
  }

  lemma {:induction false} PredicatesKept(ts: seq<Token>, p: string, i: string)
    requires Separated(ts)
    ensures JoinApproved(Squash(ts), p, i) == JoinApproved(ts, p, i)
    ensures HavingApproved(Squash(ts), p, i) == HavingApproved(ts, p, i)
  {
    Searches(ts, "ON", "BY");
    Searches(ts, "HAVING", "BY");
    FoundSeparated(ts, "ON", "BY");
    FoundSeparated(ts, "HAVING", "BY");
    var on, having := After(ts, "ON"), After(ts, "HAVING");
    if on.Some? {
      ClauseAlike(on.value);
      AlikeNormal(ClauseText(on.value), ClauseText(Squash(on.value)));
    }
    if having.Some? {
      ClauseAlike(having.value);
      AlikeNormal(ClauseText(having.value), ClauseText(Squash(having.value)));
    }
  }

  /** The pieces of a stripped list, whatever its gaps are made of. */
  lemma {:induction false} ListAlike(ts: seq<Token>)
    requires Separated(ts)
    ensures AlikeAll(C.Split(Strip(Unlex(ts))), C.Split(Strip(Unlex(Squash(ts)))))
  {
    StripTokens(ts);
    SquashSeparated(ts);
    StripTokens(Squash(ts));
    SquashInside(ts);
    SplitAlike(Inside(ts));
  }

  lemma {:induction false} GroupingKept(ts: seq<Token>, p: string)
    requires Separated(ts)
    ensures GroupingApproved(Squash(ts), p) == GroupingApproved(ts, p)
  {
    Counts(ts, "GROUP", "BY");
    Searches(ts, "GROUP", "BY");
    FoundSeparated(ts, "GROUP", "BY");
    var after := AfterPair(ts, "GROUP", "BY").GetOr([]);
    assert Squash([]) == [];
    UpTos(after, CLAUSE_BOUNDARIES);
    CutSeparated(after, CLAUSE_BOUNDARIES);
    var xs, ys := C.Split(ClauseText(after)), C.Split(ClauseText(Squash(after)));
    ListAlike(UpTo(after, CLAUSE_BOUNDARIES));
    if GroupApproved(xs, p) { AlikeKeys(xs, ys, p); }
    if GroupApproved(ys, p) { AlikeKeys(ys, xs, p); }
  }

  lemma {:induction false} SkipPunctSeparated(ts: seq<Token>, c: char)
    requires Separated(ts)
    ensures Separated(SkipPunct(ts, c))
  {
    if ts != [] { SeparatedSlice(ts, 1, |ts|); }
  }

  lemma {:induction false} WordReplaced(w: string, v: string, after: seq<Token>)
    requires TokenOk(Word(v)) && Separated([Word(w)] + after)
    ensures Separated(after) && Separated([Word(v)] + after)
  {
    var ts := [Word(w)] + after;
    SeparatedSlice(ts, 1, |ts|);
    assert ts[1..|ts|] == after;
    if after != [] { assert ts[1] == after[0] && !Mergeable(ts[0], ts[1]); }
    SeparatedConcat([Word(v)], after);
  }

  lemma {:induction false} TopCountSeparated(w: string, after: seq<Token>)
    requires TokenOk(Word(w)) && Separated([Word(w)] + after)
    ensures TopCount(w, after).Some? ==> Separated(TopCount(w, after).value.rest)
  {
    var d := LeadingDigits(w);
    WordReplaced(w, w, after);
    SkipGapSeparated(after);
    SkipPunctSeparated(SkipGap(after), ')');
    if d != w {
      WordReplaced(w, w[|d|..], after);
    }
  }

  lemma {:induction false} TopSpaced(t: seq<Token>)
    requires Separated(t) && |t| >= 3
    ensures
      var u := SkipGap(SkipPunct(SkipGap(t[3..]), '('));
      u != [] && u[0].Word? ==> (TopCount(u[0].text, u[1..]).Some? ==> Separated(TopCount(u[0].text, u[1..]).value.rest))
  {
    SeparatedSlice(t, 3, |t|);
    var a := SkipGap(t[3..]);
    SkipGapSeparated(t[3..]);
    SkipPunctSeparated(a, '(');
    SkipGapSeparated(SkipPunct(a, '('));
    var u := SkipGap(SkipPunct(a, '('));
    if u != [] && u[0].Word? { TopWordSeparated(u); }
  }

  lemma {:induction false} TopWordSeparated(u: seq<Token>)
    requires Separated(u) && u != [] && u[0].Word?
    ensures TopCount(u[0].text, u[1..]).Some? ==> Separated(TopCount(u[0].text, u[1..]).value.rest)
  {
    assert u[0] == Word(u[0].text);
    assert u == [u[0]] + u[1..];
    TopCountSeparated(u[0].text, u[1..]);
  }

  lemma {:induction false} TopSeparated(ts: seq<Token>)
    requires Separated(ts)
    ensures TopAt(ts).Some? ==> Separated(TopAt(ts).value.rest)
  {
    SkipGapSeparated(ts);
    var t := SkipGap(ts);
    if |t| >= 3 && t[2].Word? {
      TopSpaced(t);
      if |t[2].text| > 3 { TopGlued(t); }
    }
  }

  lemma {:induction false} TopGlued(t: seq<Token>)
    requires Separated(t) && |t| >= 3 && t[2].Word? && |t[2].text| > 3
    ensures TopCount(t[2].text[3..], t[3..]).Some? ==> Separated(TopCount(t[2].text[3..], t[3..]).value.rest)
  {
    var w := t[2].text;
    SeparatedSlice(t, 2, |t|);
    assert t[2..|t|] == [Word(w)] + t[3..];
    assert t[2] in t;
    WordReplaced(w, w[3..], t[3..]);
    TopCountSeparated(w[3..], t[3..]);
  }

  lemma {:induction false} SelectListKept(ts: seq<Token>, p: string, i: string)
    requires Separated(ts) && TopAt(ts).Some?
    ensures TopAt(Squash(ts)).Some?
    ensures SelectListApproved(C.Split(SelectList(Squash(ts))), p, i) == SelectListApproved(C.Split(SelectList(ts)), p, i)
  {
    Tops(ts);
    TopSeparated(ts);
    var rest := TopAt(ts).value.rest;
    UpTos(rest, {"FROM"});
    CutSeparated(rest, {"FROM"});
    ListAlike(UpTo(rest, {"FROM"}));
    var xs, ys := C.Split(SelectList(ts)), C.Split(SelectList(Squash(ts)));
    if SelectListApproved(xs, p, i) { AlikeItems(xs, ys, p, i); }
    if SelectListApproved(ys, p, i) { AlikeItems(ys, xs, p, i); }
  }

  lemma {:induction false} ApprovedKept(ts: seq<Token>)
    requires Separated(ts)
    ensures Approved(Squash(ts)) == Approved(ts)
  {
    SelectKept(ts);
    AllRefs(ts);
    AllAliases(ts);
    var refs, uses := Refs(ts), AsUses(ts);
    WordRules(ts, AllowedIdentifiers(TableAliases(refs), OutputAliases(uses, refs)));
    Counts(ts, "ORDER", "BY");
    FirstKeyAnywhere(ts);
    if SingleSelect(ts) {
      ClausesKept(ts, AliasOf(refs, "PRODUCT"), AliasOf(refs, "PRODUCTINVENTORY"));
    }
  }

  lemma {:induction false} ClausesKept(ts: seq<Token>, p: string, i: string)
    requires Separated(ts) && TopAt(ts).Some?
    ensures TopAt(Squash(ts)).Some?
    ensures ClausesApproved(Squash(ts), p, i) == ClausesApproved(ts, p, i)
  {
    PredicatesKept(ts, p, i);
    GroupingKept(ts, p);
    SelectListKept(ts, p, i);
  }

  // -------------------------------------------------------------- characters

  predicate SideBySide(ts: seq<Token>, a: char, b: char) {
    exists k :: 0 <= k < |ts| - 1 && ts[k] == Punct(a) && ts[k + 1] == Punct(b)
  }

  predicate Symbol(c: char) { TokenOk(Punct(c)) }

  lemma {:induction false} AdjacentHere(ts: seq<Token>, a: char, b: char, k: nat)
    requires (forall t <- ts :: TokenOk(t)) && Symbol(a) && Symbol(b)
    requires k + 1 < |Unlex(ts)| && Unlex(ts)[k] == a && Unlex(ts)[k + 1] == b
    ensures SideBySide(ts, a, b)
  {
    var raw, rest := Raw(ts[0]), Unlex(ts[1..]);
    assert ts[0] in ts && forall t <- ts[1..] :: t in ts;
    if k < |raw| {
      assert raw[k] in raw;
      assert ts[0] == Punct(a);
      assert rest[0] == b;
      assert ts[1] in ts && Raw(ts[1])[0] in Raw(ts[1]);
      assert ts[1] == Punct(b);
    } else {
      AdjacentHere(ts[1..], a, b, k - |raw|);
      var m :| 0 <= m < |ts[1..]| - 1 && ts[1..][m] == Punct(a) && ts[1..][m + 1] == Punct(b);
      assert ts[m + 1] == Punct(a) && ts[m + 2] == Punct(b);
    }
  }

  lemma {:induction false} AdjacentText(ts: seq<Token>, a: char, b: char)
    requires (forall t <- ts :: TokenOk(t)) && Symbol(a) && Symbol(b)
    ensures HasAdjacent(Unlex(ts), a, b) <==> SideBySide(ts, a, b)
  {
    if HasAdjacent(Unlex(ts), a, b) {
      var k :| 0 <= k < |Unlex(ts)| - 1 && Unlex(ts)[k] == a && Unlex(ts)[k + 1] == b;
      AdjacentHere(ts, a, b, k);
    }
    if SideBySide(ts, a, b) {
      var k :| 0 <= k < |ts| - 1 && ts[k] == Punct(a) && ts[k + 1] == Punct(b);
      var n := |Unlex(ts[..k])|;
      assert ts == ts[..k] + ts[k..] && ts[k..][1..] == ts[k + 1..];
      UnlexConcat(ts[..k], ts[k..]);
      assert Unlex(ts)[n] == a && Unlex(ts)[n + 1] == b;
    }
  }

  lemma {:induction false} AdjacentKept(ts: seq<Token>, a: char, b: char)
    requires Separated(ts) && Symbol(a) && Symbol(b)
    ensures HasAdjacent(Unlex(Squash(ts)), a, b) <==> HasAdjacent(Unlex(ts), a, b)
  {
    SquashSeparated(ts);
    AdjacentText(ts, a, b);
    AdjacentText(Squash(ts), a, b);
  }

  lemma {:induction false} SymbolKept(ts: seq<Token>, c: char)
    requires Separated(ts) && Symbol(c)
    ensures c in Unlex(Squash(ts)) <==> c in Unlex(ts)
  {
    SquashSeparated(ts);
    V.PunctInText(ts, c);
    V.PunctInText(Squash(ts), c);
  }

  lemma {:induction false} PlainKept(ts: seq<Token>)
    requires Separated(ts)
    ensures PlainText(Unlex(Squash(ts))) == PlainText(Unlex(ts))
  {
    SymbolKept(ts, ';');
    SymbolKept(ts, '\'');
    SymbolKept(ts, '*');
    AdjacentKept(ts, '-', '-');
    AdjacentKept(ts, '/', '*');
  }

  // ----------------------------------------------------------------- cleaning

  /** The outer gaps and one last semicolon taken off. */
  function CleanTokens(ts: seq<Token>): seq<Token> {
    var s := Inside(ts);
    if s != [] && s[|s| - 1] == Punct(';') then DropLastGap(s[..|s| - 1]) else s
  }

  lemma {:induction false} LastSemicolon(ts: seq<Token>)
    requires Separated(ts) && ts != []
    ensures Unlex(ts) != ""
    ensures Unlex(ts)[|Unlex(ts)| - 1] == ';' <==> ts[|ts| - 1] == Punct(';')
    ensures ts[|ts| - 1] == Punct(';') ==> Unlex(ts)[..|Unlex(ts)| - 1] == Unlex(ts[..|ts| - 1])
  {
    var last := ts[|ts| - 1];
    UnlexLast(ts);
    assert TokenOk(last);
    if !last.Punct? { assert last.text[|last.text| - 1] in last.text; }
  }

  lemma {:induction false} CleanText(ts: seq<Token>)
    requires Separated(ts)
    ensures Clean(Unlex(ts)) == Unlex(CleanTokens(ts)) && Separated(CleanTokens(ts))
  {
    StripTokens(ts);
    if Inside(ts) != [] {
      LastSemicolon(Inside(ts));
      WithoutLast(Inside(ts));
    }
  }

  lemma {:induction false} WithoutLast(ts: seq<Token>)
    requires Separated(ts) && ts != []
    ensures RStrip(Unlex(ts[..|ts| - 1])) == Unlex(DropLastGap(ts[..|ts| - 1]))
    ensures Separated(DropLastGap(ts[..|ts| - 1]))
  {
    SeparatedSlice(ts, 0, |ts| - 1);
    assert ts[0..|ts| - 1] == ts[..|ts| - 1];
    RStripTokens(ts[..|ts| - 1]);
    SkipGapSeparated(ts[..|ts| - 1]);
  }

  lemma {:induction false} SquashLast(ts: seq<Token>)
    ensures DropLastGap(Squash(ts)) == Squash(DropLastGap(ts))
  {
    if ts != [] { SquashFrom(ts, |ts| - 1); }
  }

  /** Cleaning a text is cleaning its tokens. */
  lemma {:induction false} CleanedTokens(s: string)
    ensures Squash(Lex(Clean(s))) == CleanTokens(Squash(Lex(s)))
  {
    var ts := Lex(s);
    LexSpells(s);
    CleanText(ts);
    LexUnlex(CleanTokens(ts));
    CleanSquash(ts);
  }

  lemma {:induction false} CleanSquash(ts: seq<Token>)
    ensures CleanTokens(Squash(ts)) == Squash(CleanTokens(ts))
  {
    SquashInside(ts);
    var x := Inside(ts);
    if x != [] {
      SquashFrom(x, |x| - 1);
      SquashLast(x[..|x| - 1]);
    }
  }

  predicate MaybeGap(ts: seq<Token>) { ts == [] || ts == [SP] }

  /** Gaps, with at most one semicolon between them. */
  function Ending(gap: seq<Token>, semicolon: bool, last: seq<Token>): seq<Token> {
    gap + (if semicolon then [Punct(';')] + last else [])
  }

  function Framed(before: seq<Token>, body: seq<Token>, after: seq<Token>): seq<Token> { before + (body + after) }

  predicate Frame(before: seq<Token>, gap: seq<Token>, last: seq<Token>) {
    MaybeGap(before) && MaybeGap(gap) && MaybeGap(last)
  }

  /** The text spells the tokens `body`, with any white space in its gaps and around it, and
      possibly a semicolon after it. */
  ghost predicate Spells(text: string, body: seq<Token>) {
    exists before, gap, semicolon, last ::
      Frame(before, gap, last) && Squash(Lex(text)) == Framed(before, body, Ending(gap, semicolon, last))
  }

  predicate Bare(body: seq<Token>) {
    body != [] && !body[0].Gap? && !body[|body| - 1].Gap? && body[|body| - 1] != Punct(';')
  }

  lemma {:induction false} FrontGap(gap: seq<Token>, x: seq<Token>)
    requires MaybeGap(gap) && x != [] && !x[0].Gap?
    ensures SkipGap(gap + x) == x
  {
    if gap == [] { assert gap + x == x; } else { assert (gap + x)[1..] == x; }
  }

  lemma {:induction false} BackGap(x: seq<Token>, gap: seq<Token>)
    requires MaybeGap(gap) && x != [] && !x[|x| - 1].Gap?
    ensures DropLastGap(x + gap) == x
  {
    if gap == [] { assert x + gap == x; } else { assert (x + gap)[..|x|] == x; }
  }

  lemma {:induction false} SemicolonCleaned(body: seq<Token>, gap: seq<Token>, last: seq<Token>)
    requires MaybeGap(gap) && MaybeGap(last) && Bare(body)
    ensures
      var x := DropLastGap(body + Ending(gap, true, last));
      x != [] && x[|x| - 1] == Punct(';') && DropLastGap(x[..|x| - 1]) == body
  {
    var x := body + gap + [Punct(';')];
    assert body + Ending(gap, true, last) == x + last;
    BackGap(x, last);
    assert x[..|x| - 1] == body + gap;
    BackGap(body, gap);
  }

  lemma {:induction false} FrameCleaned(before: seq<Token>, body: seq<Token>, gap: seq<Token>, semicolon: bool,
                                        last: seq<Token>)
    requires Frame(before, gap, last) && Bare(body)
    ensures CleanTokens(Framed(before, body, Ending(gap, semicolon, last))) == body
  {
    FrontGap(before, body + Ending(gap, semicolon, last));
    if semicolon {
      SemicolonCleaned(body, gap, last);
    } else {
      assert Ending(gap, semicolon, last) == gap;
      BackGap(body, gap);
    }
  }

  /** Cleaning a text that spells a statement leaves the statement. */
  lemma {:induction false} SpelledCleans(text: string, body: seq<Token>)
    requires Spells(text, body) && Bare(body)
    ensures Squash(Lex(Clean(text))) == body
  {
    CleanedTokens(text);
    var before, gap, semicolon, last :|
      Frame(before, gap, last) && Squash(Lex(text)) == Framed(before, body, Ending(gap, semicolon, last));
    FrameCleaned(before, body, gap, semicolon, last);
  }

  // ------------------------------------------------------------------ verdict

  lemma {:induction false} VerdictOfTokens(sql: string)
    ensures Decision(sql).Accepted?
       <==> PlainText(Unlex(Squash(Lex(Clean(sql))))) && Approved(Squash(Lex(Clean(sql))))
  {
    var ts := Lex(Clean(sql));
    LexSpells(Clean(sql));
    PlainKept(ts);
    ApprovedKept(ts);
  }

  lemma {:induction false} CleanedVerdict(a: string, b: string)
    requires Alike(Clean(a), Clean(b))
    ensures Decision(a).Accepted? <==> Decision(b).Accepted?
  {
    VerdictOfTokens(a);
    VerdictOfTokens(b);
  }

  /** Replacing white space by other white space, inside a text or at its ends, keeps the
      verdict and what is sent on, up to white space. */
  lemma {:induction false} SpacingKeepsVerdict(a: string, b: string)
    requires Alike(a, b)
    ensures Decision(a).Accepted? <==> Decision(b).Accepted?
    ensures Decision(a).Accepted? ==> Alike(Decision(a).sql, Decision(b).sql)
  {
    CleanedTokens(a);
    CleanedTokens(b);
    CleanedVerdict(a, b);
  }
}
