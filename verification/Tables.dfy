/** Rules 8 to 10 on printed statements: what the scans for table references and
    for uses of AS find. */
module Tables {
  import opened Text
  import opened SqlAst
  import opened Printed
  import opened Scanning
  import opened Sections
  import G = Guardrail

  predicate SchemaOk(t: Table) { t.schema.Some? ==> t.schema.value.Key() == "PRODUCTION" }

  /** Text that can follow a table: nothing or a gap. */
  predicate Next(k: seq<Token>) { k != [] ==> k[0].Gap? }

  lemma {:induction false} IdentName(n: Name, k: seq<Token>)
    requires NameOk(n)
    requires k != [] ==> k[0] != Punct(']')
    ensures G.IdentAt(PName(n) + k) == G.Hit(n.text, k)
  {
    var ts := PName(n) + k;
    if n.bracketed {
      assert ts[1..] == [Word(n.text), Punct(']')] + k;
      assert ts[1..][1..] == [Punct(']')] + k;
      assert ts[1..][1..][1..] == k;
    } else {
      assert ts[1..] == k;
    }
  }

  lemma {:induction false} AliasAfter(alias: Name, k: seq<Token>)
    requires NameOk(alias) && (k != [] ==> k[0] != Punct(']'))
    ensures G.AsAt([Word("AS"), SP] + PName(alias) + k) == G.Hit(alias.text, k)
  {
    var ts := [Word("AS"), SP] + PName(alias) + k;
    assert Upper("AS") == "AS";
    assert ts[2..] == PName(alias) + k;
    IdentName(alias, k);
  }

  /** What is left after the qualifier and the table name. */
  function AfterName(t: Table, k: seq<Token>): seq<Token> {
    [SP] + ([Word("AS"), SP] + PName(t.alias) + k)
  }

  lemma {:induction false} TableParts(t: Table, k: seq<Token>)
    ensures t.schema.None? ==> PTable(t) + k == PName(t.name) + AfterName(t, k)
    ensures t.schema.Some? ==>
      PTable(t) + k == PName(t.schema.value) + ([Punct('.')] + (PName(t.name) + AfterName(t, k)))
  {
  }

  lemma {:induction false} TableNameFound(t: Table, k: seq<Token>)
    requires TableOk(t) && Next(k)
    ensures SchemaOk(t) ==> G.TableNameAt(PTable(t) + k) == G.Hit(t.name.text, AfterName(t, k))
    ensures !SchemaOk(t) ==>
      && G.TableNameAt(PTable(t) + k).Hit?
      && G.TableNameAt(PTable(t) + k).rest != []
      && G.TableNameAt(PTable(t) + k).rest[0] == Punct('.')
  {
    TableParts(t, k);
    IdentName(t.name, AfterName(t, k));
    if t.schema.Some? {
      var rest := [Punct('.')] + (PName(t.name) + AfterName(t, k));
      IdentName(t.schema.value, rest);
      assert rest[1..] == PName(t.name) + AfterName(t, k);
    }
  }

  function RefTokens(kw: string, t: Table, k: seq<Token>): seq<Token> { [Word(kw), SP] + (PTable(t) + k) }

  function RefOf(t: Table): G.TableRef { G.TableRef(t.name.Key(), Some(t.alias.Key())) }

  lemma {:induction false} RefTokensStart(kw: string, t: Table, k: seq<Token>)
    requires kw == "FROM" || kw == "JOIN"
    ensures G.RefStarts(RefTokens(kw, t, k)) && RefTokens(kw, t, k)[2..] == PTable(t) + k
    ensures |RefTokens(kw, t, k)| - |k| == 2 + |PTable(t)|
    ensures AfterName(t, k)[1..] == [Word("AS"), SP] + PName(t.alias) + k
  {
    assert Upper(kw) == kw;
  }

  lemma {:induction false} RefWithAlias(ts: seq<Token>, table: string, rest: seq<Token>, alias: string, k: seq<Token>)
    requires G.RefStarts(ts) && G.TableNameAt(ts[2..]) == G.Hit(table, rest)
    requires rest != [] && rest[0].Gap? && G.AsAt(rest[1..]) == G.Hit(alias, k)
    ensures G.RefAt(ts) == G.Found(G.TableRef(Upper(table), Some(Upper(alias))), |ts| - |k|)
  {
  }

  lemma {:induction false} RefWithoutAlias(ts: seq<Token>)
    requires G.RefStarts(ts) && G.TableNameAt(ts[2..]).Hit?
    requires G.TableNameAt(ts[2..]).rest != [] && !G.TableNameAt(ts[2..]).rest[0].Gap?
    ensures G.RefAt(ts).Found? && G.RefAt(ts).value.alias.None?
  {
  }

  lemma {:induction false} RefFound(kw: string, t: Table, k: seq<Token>)
    requires kw == "FROM" || kw == "JOIN"
    requires TableOk(t) && Next(k)
    ensures SchemaOk(t) ==> G.RefAt(RefTokens(kw, t, k)) == G.Found(RefOf(t), 2 + |PTable(t)|)
    ensures !SchemaOk(t) ==>
      G.RefAt(RefTokens(kw, t, k)).Found? && G.RefAt(RefTokens(kw, t, k)).value.alias.None?
  {
    RefTokensStart(kw, t, k);
    TableNameFound(t, k);
    AliasAfter(t.alias, k);
    if SchemaOk(t) {
      RefWithAlias(RefTokens(kw, t, k), t.name.text, AfterName(t, k), t.alias.text, k);
    } else {
      RefWithoutAlias(RefTokens(kw, t, k));
    }
  }

  /** At position `i`, a piece is followed by nothing or a gap. */
  predicate Ends(ts: seq<Token>, i: nat) { i < |ts| ==> ts[i].Gap? }

  predicate SomeUnnamed(refs: seq<G.Match<G.TableRef>>) { exists r <- refs :: r.value.alias.None? }

  function KwTable(kw: string, t: Table): seq<Token> { [Word(kw), SP] + PTable(t) }

  lemma {:induction false} RefPlaced(ts: seq<Token>, i: nat, kw: string, t: Table, k: seq<Token>)
    requires At(ts, i, KwTable(kw, t)) && Ends(ts, i + |KwTable(kw, t)|)
    requires k == ts[i + |KwTable(kw, t)|..]
    ensures i < |ts| && ts[i..] == RefTokens(kw, t, k) && Next(k)
  {
    AtRest(ts, i, KwTable(kw, t));
    assert KwTable(kw, t) + k == RefTokens(kw, t, k);
  }

  lemma {:induction false} RefAtPlace(ts: seq<Token>, i: nat, kw: string, t: Table)
    requires kw == "FROM" || kw == "JOIN"
    requires TableOk(t)
    requires At(ts, i, KwTable(kw, t)) && Ends(ts, i + |KwTable(kw, t)|)
    ensures i < |ts|
    ensures SchemaOk(t) ==>
      G.RefsAt(ts)[i] == G.Found(RefOf(t), |KwTable(kw, t)|)
    ensures !SchemaOk(t) ==> G.RefsAt(ts)[i].Found? && G.RefsAt(ts)[i].value.alias.None?
  {
    var k := ts[i + |KwTable(kw, t)|..];
    RefPlaced(ts, i, kw, t, k);
    RefFound(kw, t, k);
    RefsAtIndex(ts, i);
  }

  lemma {:induction false} UsePlaced(ts: seq<Token>, i: nat, alias: Name)
    requires NameOk(alias)
    requires At(ts, i, [Word("AS"), SP] + PName(alias))
    requires i + 2 + |PName(alias)| < |ts| ==> ts[i + 2 + |PName(alias)|] != Punct(']')
    ensures i < |ts| && G.AliasesAt(ts)[i] == G.Found(alias.text, 2 + |PName(alias)|)
  {
    var use := [Word("AS"), SP] + PName(alias);
    AtRest(ts, i, use);
    AliasHit(alias, ts[i + |use|..]);
    AliasesAtIndex(ts, i);
  }

  lemma {:induction false} AliasHit(alias: Name, k: seq<Token>)
    requires NameOk(alias) && (k != [] ==> k[0] != Punct(']'))
    ensures G.AliasAt([Word("AS"), SP] + PName(alias) + k) == G.Found(alias.text, 2 + |PName(alias)|)
  {
    AliasAfter(alias, k);
  }

  /** Everything of a table before its AS. */
  function BeforeAs(t: Table): seq<Token> {
    (if t.schema.Some? then PName(t.schema.value) + [Punct('.')] else []) + PName(t.name) + [SP]
  }

  lemma {:induction false} BeforeAsQuiet(t: Table)
    requires TableOk(t)
    ensures PTable(t) == BeforeAs(t) + ([Word("AS"), SP] + PName(t.alias))
    ensures Without(BeforeAs(t), {"AS"})
  {
    QualifiedInner(t);
    var name := (if t.schema.Some? then PName(t.schema.value) + [Punct('.')] else []) + PName(t.name);
    OnlyAvoids(name, {}, {"AS"});
    assert BeforeAs(t) == name + [SP];
  }

  lemma {:induction false} UsePlace(ts: seq<Token>, i: nat, kw: string, t: Table)
    requires kw == "FROM" || kw == "JOIN"
    requires TableOk(t)
    requires At(ts, i, KwTable(kw, t))
    ensures
      var before := [Word(kw), SP] + BeforeAs(t);
      && At(ts, i, before) && Without(before, {"AS"})
      && At(ts, i + |before|, [Word("AS"), SP] + PName(t.alias))
      && |KwTable(kw, t)| == |before| + 2 + |PName(t.alias)|
  {
    BeforeAsQuiet(t);
    var before, use := [Word(kw), SP] + BeforeAs(t), [Word("AS"), SP] + PName(t.alias);
    assert Upper(kw) == kw;
    assert KwTable(kw, t) == before + use;
    AtSplit(ts, i, before, use);
  }

  /** The use of AS that a table in its place gives. */
  lemma {:induction false} TableUse(ts: seq<Token>, i: nat, kw: string, t: Table, e: nat)
    returns (u: G.Match<string>)
    requires kw == "FROM" || kw == "JOIN"
    requires TableOk(t)
    requires At(ts, i, KwTable(kw, t)) && e == i + |KwTable(kw, t)| && Ends(ts, e)
    ensures G.FindAll(G.AliasesAt(ts), i) == [u] + G.FindAll(G.AliasesAt(ts), e)
    ensures i <= u.begin < e
  {
    var before := [Word(kw), SP] + BeforeAs(t);
    UsePlace(ts, i, kw, t);
    UsePlaced(ts, i + |before|, t.alias);
    UseAfter(ts, i, before, t.alias.text, 2 + |PName(t.alias)|, e);
    u := G.Match(i + |before|, e, t.alias.text);
  }

  /** A use of AS after tokens without one. */
  lemma {:induction false} UseAfter(ts: seq<Token>, i: nat, before: seq<Token>, text: string, len: nat, e: nat)
    requires At(ts, i, before) && Without(before, {"AS"})
    requires i + |before| < |ts| && G.AliasesAt(ts)[i + |before|] == G.Found(text, len)
    requires 0 < len && e == i + |before| + len
    ensures G.FindAll(G.AliasesAt(ts), i)
         == [G.Match(i + |before|, e, text)] + G.FindAll(G.AliasesAt(ts), e)
  {
    NoAliases(ts, i, before, i + |before|);
    FindAfter(G.AliasesAt(ts), i, i + |before|, text, len, e);
  }

  lemma {:induction false} FindAfter<T>(at: seq<G.Found<T>>, i: nat, m: nat, value: T, len: nat, e: nat)
    requires G.FindAll(at, i) == G.FindAll(at, m)
    requires 0 < len && m < |at| && at[m] == G.Found(value, len) && e == m + len
    ensures G.FindAll(at, i) == [G.Match(m, e, value)] + G.FindAll(at, e)
  {
    FindHere(at, m, value, len);
  }

  lemma {:induction false} FindHere<T>(at: seq<G.Found<T>>, m: nat, value: T, len: nat)
    requires 0 < len && m < |at| && at[m] == G.Found(value, len)
    ensures G.FindAll(at, m) == [G.Match(m, m + len, value)] + G.FindAll(at, m + len)
  {
  }

  /** What the two scans read between positions `i` and `e`: references, and uses of AS
      that all lie inside them. */
  ghost predicate Reads(ts: seq<Token>, i: nat, e: nat, rs: seq<G.Match<G.TableRef>>, us: seq<G.Match<string>>) {
    Scanned(G.RefsAt(ts), G.AliasesAt(ts), i, e, rs, us)
  }

  ghost predicate Scanned(at: seq<G.Found<G.TableRef>>, uses: seq<G.Found<string>>, i: nat, e: nat,
                          rs: seq<G.Match<G.TableRef>>, us: seq<G.Match<string>>) {
    && G.FindAll(at, i) == rs + G.FindAll(at, e)
    && G.FindAll(uses, i) == us + G.FindAll(uses, e)
    && Inside(us, rs)
  }

  predicate Inside(us: seq<G.Match<string>>, rs: seq<G.Match<G.TableRef>>) {
    forall u <- us :: G.Within(u.begin, rs)
  }

  lemma {:induction false} ReadsConcat(ts: seq<Token>, i: nat, n: nat, e: nat,
                    r1: seq<G.Match<G.TableRef>>, u1: seq<G.Match<string>>,
                    r2: seq<G.Match<G.TableRef>>, u2: seq<G.Match<string>>)
    requires Reads(ts, i, n, r1, u1) && Reads(ts, n, e, r2, u2)
    ensures Reads(ts, i, e, r1 + r2, u1 + u2)
  {
    ScannedConcat(G.RefsAt(ts), G.AliasesAt(ts), i, n, e, r1, u1, r2, u2);
  }

  lemma {:induction false} ScannedConcat(at: seq<G.Found<G.TableRef>>, uses: seq<G.Found<string>>, i: nat, n: nat, e: nat,
                    r1: seq<G.Match<G.TableRef>>, u1: seq<G.Match<string>>,
                    r2: seq<G.Match<G.TableRef>>, u2: seq<G.Match<string>>)
    requires Scanned(at, uses, i, n, r1, u1) && Scanned(at, uses, n, e, r2, u2)
    ensures Scanned(at, uses, i, e, r1 + r2, u1 + u2)
  {
    FindJoin(at, i, r1, n, r2, e);
    FindJoin(uses, i, u1, n, u2, e);
  }

  lemma {:induction false} ReadsNothing(ts: seq<Token>, i: nat, part: seq<Token>, e: nat)
    requires At(ts, i, part) && e == i + |part|
    requires Without(part, {"FROM", "JOIN"}) && Without(part, {"AS"})
    ensures Reads(ts, i, e, [], [])
  {
    NoRefs(ts, i, part, e);
    NoAliases(ts, i, part, e);
  }

  /** A table under the approved schema, in its place. */
  lemma {:induction false} TableHere(ts: seq<Token>, i: nat, kw: string, t: Table, e: nat)
    returns (r: G.Match<G.TableRef>, u: G.Match<string>)
    requires kw == "FROM" || kw == "JOIN"
    requires TableOk(t) && SchemaOk(t)
    requires At(ts, i, KwTable(kw, t)) && e == i + |KwTable(kw, t)| && Ends(ts, e)
    ensures Reads(ts, i, e, [r], [u]) && r.value == RefOf(t)
  {
    RefAtPlace(ts, i, kw, t);
    u := TableUse(ts, i, kw, t, e);
    r := OneScanned(G.RefsAt(ts), G.AliasesAt(ts), i, e, |KwTable(kw, t)|, RefOf(t), u);
  }

  /** One reference found, with the use of AS inside it. */
  lemma {:induction false} OneScanned(at: seq<G.Found<G.TableRef>>, uses: seq<G.Found<string>>, i: nat, e: nat,
                                      len: nat, ref: G.TableRef, u: G.Match<string>)
    returns (r: G.Match<G.TableRef>)
    requires i < e && i < |at| && at[i] == G.Found(ref, len) && e == i + len
    requires G.FindAll(uses, i) == [u] + G.FindAll(uses, e)
    requires i <= u.begin < e
    ensures Scanned(at, uses, i, e, [r], [u]) && r.value == ref
  {
    FindHere(at, i, ref, len);
    r := G.Match(i, i + len, ref);
    OneInside(u, r);
  }

  lemma {:induction false} OneInside(u: G.Match<string>, r: G.Match<G.TableRef>)
    requires r.begin <= u.begin < r.end
    ensures Inside([u], [r])
  {
    assert r in [r];
  }

  lemma {:induction false} TableUnnamed(ts: seq<Token>, i: nat, kw: string, t: Table)
    requires kw == "FROM" || kw == "JOIN"
    requires TableOk(t) && !SchemaOk(t)
    requires At(ts, i, KwTable(kw, t)) && Ends(ts, i + |KwTable(kw, t)|)
    ensures SomeUnnamed(G.FindAll(G.RefsAt(ts), i))
  {
    RefAtPlace(ts, i, kw, t);
  }

  // ------------------------------------------------------------------ joins

  function LeadTokens(k: JoinKind): seq<Token> {
    match k
    case BareJoin => [SP]
    case InnerJoin => [SP, Word("INNER"), SP]
    case LeftJoin => [SP, Word("LEFT"), SP]
  }

  function OnTokens(j: Join): seq<Token> { [SP, Word("ON"), SP] + PCond(j.on) }

  lemma {:induction false} JoinRegrouped(j: Join)
    ensures [SP] + PJoin(j) == LeadTokens(j.kind) + (KwTable("JOIN", j.table) + OnTokens(j))
  {
    assert [SP] + PKind(j.kind) == LeadTokens(j.kind) + [Word("JOIN"), SP];
    Regroup([SP], PKind(j.kind), PTable(j.table), [SP, Word("ON"), SP], PCond(j.on),
            LeadTokens(j.kind), [Word("JOIN"), SP]);
  }

  lemma {:induction false} Regroup(sp: seq<Token>, kind: seq<Token>, table: seq<Token>, on: seq<Token>,
                cond: seq<Token>, lead: seq<Token>, join: seq<Token>)
    requires sp + kind == lead + join
    ensures sp + (kind + (table + on + cond)) == lead + ((join + table) + (on + cond))
  {
    assert sp + (kind + (table + on + cond)) == (sp + kind) + (table + (on + cond));
  }

  lemma {:induction false} LeadStretch(k: JoinKind)
    ensures Without(LeadTokens(k), {"FROM", "JOIN"}) && Without(LeadTokens(k), {"AS"})
  {
    assert Upper("INNER") == "INNER" && Upper("LEFT") == "LEFT";
  }

  lemma {:induction false} OnStretch(j: Join)
    requires CondOk(j.on)
    ensures Without(OnTokens(j), {"FROM", "JOIN"}) && Without(OnTokens(j), {"AS"})
  {
    CondInner(j.on);
    OnlyAvoids(PCond(j.on), {}, {"FROM", "JOIN"});
    OnlyAvoids(PCond(j.on), {}, {"AS"});
    assert Upper("ON") == "ON";
  }

  /** A join from position `i` on, cut at `m`, `n` and `e` into its lead, its table and its ON. */
  ghost predicate Cut(ts: seq<Token>, j: Join, i: nat, m: nat, n: nat, e: nat) {
    && At(ts, i, LeadTokens(j.kind)) && m == i + |LeadTokens(j.kind)|
    && At(ts, m, KwTable("JOIN", j.table)) && n == m + |KwTable("JOIN", j.table)| && Ends(ts, n)
    && At(ts, n, OnTokens(j)) && e == n + |OnTokens(j)|
  }

  lemma {:induction false} JoinPlaces(ts: seq<Token>, i: nat, j: Join) returns (m: nat, n: nat, e: nat)
    requires At(ts, i, [SP] + PJoin(j))
    ensures Cut(ts, j, i, m, n, e) && e == i + |[SP] + PJoin(j)|
  {
    m := i + |LeadTokens(j.kind)|;
    n := m + |KwTable("JOIN", j.table)|;
    e := n + |OnTokens(j)|;
    JoinRegrouped(j);
    AtSplit(ts, i, LeadTokens(j.kind), KwTable("JOIN", j.table) + OnTokens(j));
    AtSplit(ts, m, KwTable("JOIN", j.table), OnTokens(j));
    AtIndex(ts, n, OnTokens(j), 0);
  }

  lemma {:induction false} LeadReads(ts: seq<Token>, i: nat, j: Join, e: nat)
    requires CondOk(j.on) && At(ts, i, LeadTokens(j.kind)) && e == i + |LeadTokens(j.kind)|
    ensures Reads(ts, i, e, [], [])
  {
    LeadStretch(j.kind);
    ReadsNothing(ts, i, LeadTokens(j.kind), e);
  }

  lemma {:induction false} OnReads(ts: seq<Token>, i: nat, j: Join, e: nat)
    requires CondOk(j.on) && At(ts, i, OnTokens(j)) && e == i + |OnTokens(j)|
    ensures Reads(ts, i, e, [], [])
  {
    OnStretch(j);
    ReadsNothing(ts, i, OnTokens(j), e);
  }

  /** A join in its place: one reference, one use of AS. */
  lemma {:induction false} JoinHere(ts: seq<Token>, i: nat, j: Join, m: nat, n: nat, e: nat)
    returns (r: G.Match<G.TableRef>, u: G.Match<string>)
    requires TableOk(j.table) && CondOk(j.on) && SchemaOk(j.table)
    requires Cut(ts, j, i, m, n, e)
    ensures Reads(ts, i, e, [r], [u]) && r.value == RefOf(j.table)
  {
    r, u := TableHere(ts, m, "JOIN", j.table, n);
    LeadReads(ts, i, j, m);
    OnReads(ts, n, j, e);
    ReadsAround(ts, i, m, n, e, r, u);
  }

  lemma {:induction false} ReadsAround(ts: seq<Token>, i: nat, m: nat, n: nat, e: nat,
                    r: G.Match<G.TableRef>, u: G.Match<string>)
    requires Reads(ts, i, m, [], []) && Reads(ts, m, n, [r], [u]) && Reads(ts, n, e, [], [])
    ensures Reads(ts, i, e, [r], [u])
  {
    ScannedAround(G.RefsAt(ts), G.AliasesAt(ts), i, m, n, e, r, u);
  }

  lemma {:induction false} ScannedAround(at: seq<G.Found<G.TableRef>>, uses: seq<G.Found<string>>,
                    i: nat, m: nat, n: nat, e: nat, r: G.Match<G.TableRef>, u: G.Match<string>)
    requires Scanned(at, uses, i, m, [], []) && Scanned(at, uses, m, n, [r], [u]) && Scanned(at, uses, n, e, [], [])
    ensures Scanned(at, uses, i, e, [r], [u])
  {
    ScannedConcat(at, uses, i, m, n, [], [], [r], [u]);
    assert [] + [r] == [r] && [] + [u] == [u];
    ScannedConcat(at, uses, i, n, e, [r], [u], [], []);
    assert [r] + [] == [r] && [u] + [] == [u];
  }

  lemma {:induction false} JoinUnnamed(ts: seq<Token>, i: nat, j: Join, m: nat, n: nat, e: nat)
    requires TableOk(j.table) && CondOk(j.on) && !SchemaOk(j.table)
    requires Cut(ts, j, i, m, n, e)
    ensures SomeUnnamed(G.FindAll(G.RefsAt(ts), i))
  {
    LeadStretch(j.kind);
    NoRefs(ts, i, LeadTokens(j.kind), m);
    TableUnnamed(ts, m, "JOIN", j.table);
  }

  /** The references of a list of matches. */
  function Values(rs: seq<G.Match<G.TableRef>>): (v: seq<G.TableRef>)
    ensures |v| == |rs| && forall k :: 0 <= k < |rs| ==> v[k] == rs[k].value
  {
    seq(|rs|, k requires 0 <= k < |rs| => rs[k].value)
  }

  function RefsOf(js: seq<Join>): (v: seq<G.TableRef>)
    ensures |v| == |js| && forall k :: 0 <= k < |js| ==> v[k] == RefOf(js[k].table)
  {
    seq(|js|, k requires 0 <= k < |js| => RefOf(js[k].table))
  }

  predicate JoinsOk(js: seq<Join>) { forall j <- js :: TableOk(j.table) && CondOk(j.on) }

  predicate JoinSchemasOk(js: seq<Join>) { forall j <- js :: SchemaOk(j.table) }

  /** The first join of a list, in its place before the others. */
  lemma {:induction false} JoinsPlaces(ts: seq<Token>, i: nat, js: seq<Join>)
    returns (m: nat, n: nat, e: nat)
    requires js != [] && At(ts, i, PJoins(js))
    ensures Cut(ts, js[0], i, m, n, e)
    ensures At(ts, e, PJoins(js[1..])) && i + |PJoins(js)| == e + |PJoins(js[1..])|
  {
    AtSplit(ts, i, [SP] + PJoin(js[0]), PJoins(js[1..]));
    m, n, e := JoinPlaces(ts, i, js[0]);
  }

  lemma {:induction false} JoinsHere(ts: seq<Token>, i: nat, js: seq<Join>, end: nat)
    returns (rs: seq<G.Match<G.TableRef>>, us: seq<G.Match<string>>)
    requires JoinsOk(js) && JoinSchemasOk(js)
    requires At(ts, i, PJoins(js)) && end == i + |PJoins(js)|
    ensures Reads(ts, i, end, rs, us) && Values(rs) == RefsOf(js)
    decreases js
  {
    if js == [] {
      rs, us := [], [];
    } else {
      var r, u, e := FirstJoin(ts, i, js);
      rs, us := JoinsHere(ts, e, js[1..], end);
      ReadsConcat(ts, i, e, end, [r], [u], rs, us);
      ValuesOfJoins(r, rs, js);
      rs, us := [r] + rs, [u] + us;
    }
  }

  lemma {:induction false} FirstJoin(ts: seq<Token>, i: nat, js: seq<Join>)
    returns (r: G.Match<G.TableRef>, u: G.Match<string>, e: nat)
    requires js != [] && TableOk(js[0].table) && CondOk(js[0].on) && SchemaOk(js[0].table)
    requires At(ts, i, PJoins(js))
    ensures Reads(ts, i, e, [r], [u]) && r.value == RefOf(js[0].table)
    ensures At(ts, e, PJoins(js[1..])) && i + |PJoins(js)| == e + |PJoins(js[1..])|
  {
    var m, n;
    m, n, e := JoinsPlaces(ts, i, js);
    r, u := JoinHere(ts, i, js[0], m, n, e);
  }

  lemma {:induction false} ValuesOfJoins(r: G.Match<G.TableRef>, rs: seq<G.Match<G.TableRef>>, js: seq<Join>)
    requires js != [] && r.value == RefOf(js[0].table) && Values(rs) == RefsOf(js[1..])
    ensures Values([r] + rs) == RefsOf(js)
  {
    var v := Values([r] + rs);
    assert |v| == |js|;
    forall k | 0 <= k < |js| ensures v[k] == RefsOf(js)[k] {
      if k > 0 { assert v[k] == Values(rs)[k - 1] == RefsOf(js[1..])[k - 1]; }
    }
  }

  lemma {:induction false} JoinsUnnamed(ts: seq<Token>, i: nat, js: seq<Join>)
    requires JoinsOk(js) && !JoinSchemasOk(js)
    requires At(ts, i, PJoins(js))
    ensures SomeUnnamed(G.FindAll(G.RefsAt(ts), i))
    decreases js
  {
    var m, n, e := JoinsPlaces(ts, i, js);
    if SchemaOk(js[0].table) {
      var r, _ := JoinHere(ts, i, js[0], m, n, e);
      JoinsUnnamed(ts, e, js[1..]);
    } else {
      JoinUnnamed(ts, i, js[0], m, n, e);
    }
  }

  // ------------------------------------------------------------------ items

  predicate AliasIs(x: Item, text: string) { x.alias.Some? && x.alias.value.text == text }

  predicate Declares(xs: seq<Item>, text: string) { exists x <- xs :: AliasIs(x, text) }

  predicate Uses(us: seq<G.Match<string>>, text: string) { exists u <- us :: u.value == text }

  /** `us` lists the aliases of the items, found between `i` and `e`. */
  ghost predicate Lists(us: seq<G.Match<string>>, xs: seq<Item>, i: nat, e: nat) {
    && (forall u <- us :: i <= u.begin < e)
    && (forall text :: Uses(us, text) <==> Declares(xs, text))
  }

  ghost predicate ItemReads(ts: seq<Token>, i: nat, e: nat, xs: seq<Item>, us: seq<G.Match<string>>) {
    Listed(G.AliasesAt(ts), i, e, xs, us)
  }

  ghost predicate Listed(uses: seq<G.Found<string>>, i: nat, e: nat, xs: seq<Item>, us: seq<G.Match<string>>) {
    G.FindAll(uses, i) == us + G.FindAll(uses, e) && Lists(us, xs, i, e)
  }

  lemma {:induction false} UsesConcat(us: seq<G.Match<string>>, vs: seq<G.Match<string>>, text: string)
    ensures Uses(us + vs, text) <==> Uses(us, text) || Uses(vs, text)
  {
    assert forall u <- us :: u in us + vs;
    assert forall u <- vs :: u in us + vs;
  }

  lemma {:induction false} ListsConcat(us: seq<G.Match<string>>, xs: seq<Item>, vs: seq<G.Match<string>>, ys: seq<Item>,
                    i: nat, n: nat, e: nat)
    requires i <= n <= e && Lists(us, xs, i, n) && Lists(vs, ys, n, e)
    ensures Lists(us + vs, xs + ys, i, e)
  {
    forall text ensures Uses(us + vs, text) <==> Declares(xs + ys, text) {
      UsesConcat(us, vs, text);
    }
  }

  lemma {:induction false} ListedConcat(uses: seq<G.Found<string>>, i: nat, n: nat, e: nat, xs: seq<Item>, us: seq<G.Match<string>>,
                        ys: seq<Item>, vs: seq<G.Match<string>>)
    requires i <= n <= e
    requires Listed(uses, i, n, xs, us) && Listed(uses, n, e, ys, vs)
    ensures Listed(uses, i, e, xs + ys, us + vs)
  {
    ListsConcat(us, xs, vs, ys, i, n, e);
    FindJoin(uses, i, us, n, vs, e);
  }

  lemma {:induction false} ItemQuiet(e: Expr)
    requires ExprOk(e)
    ensures Without(PExpr(e), {"AS"}) && Without(PExpr(e) + [SP], {"AS"})
  {
    ExprInner(e);
    OnlyAvoids(PExpr(e), {}, {"AS"});
  }

  lemma {:induction false} ItemPlaces(ts: seq<Token>, i: nat, x: Item)
    requires x.alias.Some? && At(ts, i, PItem(x))
    ensures At(ts, i, PExpr(x.expr) + [SP])
    ensures At(ts, i + |PExpr(x.expr) + [SP]|, [Word("AS"), SP] + PName(x.alias.value))
    ensures |PItem(x)| == |PExpr(x.expr) + [SP]| + 2 + |PName(x.alias.value)|
  {
    var before, use := PExpr(x.expr) + [SP], [Word("AS"), SP] + PName(x.alias.value);
    assert PItem(x) == before + use;
    AtSplit(ts, i, before, use);
  }

  lemma {:induction false} OneItem(us: seq<G.Match<string>>, x: Item, i: nat, e: nat)
    requires x.alias.None? ==> us == []
    requires x.alias.Some? ==> |us| == 1 && us[0].value == x.alias.value.text && i <= us[0].begin < e
    ensures Lists(us, [x], i, e)
  {
    assert x in [x];
    if us != [] { assert us[0] in us; }
  }

  lemma {:induction false} AliasedItem(ts: seq<Token>, i: nat, x: Item, e: nat) returns (m: nat)
    requires ItemOk(x) && x.alias.Some?
    requires At(ts, i, PItem(x)) && e == i + |PItem(x)|
    requires e < |ts| ==> ts[e] != Punct(']')
    ensures i <= m < e
    ensures G.FindAll(G.AliasesAt(ts), i)
         == [G.Match(m, e, x.alias.value.text)] + G.FindAll(G.AliasesAt(ts), e)
  {
    ItemQuiet(x.expr);
    ItemPlaces(ts, i, x);
    var before := PExpr(x.expr) + [SP];
    m := i + |before|;
    UsePlaced(ts, m, x.alias.value);
    UseAfter(ts, i, before, x.alias.value.text, 2 + |PName(x.alias.value)|, e);
  }

  lemma {:induction false} ItemHere(ts: seq<Token>, i: nat, x: Item, e: nat)
    returns (us: seq<G.Match<string>>)
    requires ItemOk(x)
    requires At(ts, i, PItem(x)) && e == i + |PItem(x)|
    requires e < |ts| ==> ts[e] != Punct(']')
    ensures ItemReads(ts, i, e, [x], us)
  {
    if x.alias.Some? {
      var m := AliasedItem(ts, i, x, e);
      us := [G.Match(m, e, x.alias.value.text)];
    } else {
      ItemQuiet(x.expr);
      assert PItem(x) == PExpr(x.expr);
      NoAliases(ts, i, PItem(x), e);
      us := [];
    }
    OneItem(us, x, i, e);
  }

  lemma {:induction false} ItemsPlaces(ts: seq<Token>, i: nat, xs: seq<Item>)
    requires |xs| > 1 && At(ts, i, PList(PItems(xs)))
    ensures
      var n := i + |PItem(xs[0])|;
      && At(ts, i, PItem(xs[0])) && At(ts, n, [Punct(','), SP]) && At(ts, n + 2, PList(PItems(xs[1..])))
      && n < |ts| && ts[n] == Punct(',')
      && i + |PList(PItems(xs))| == n + 2 + |PList(PItems(xs[1..]))|
  {
    var n := i + |PItem(xs[0])|;
    var rest := PList(PItems(xs[1..]));
    assert PItems(xs)[1..] == PItems(xs[1..]);
    assert PList(PItems(xs)) == PItem(xs[0]) + ([Punct(','), SP] + rest);
    AtSplit(ts, i, PItem(xs[0]), [Punct(','), SP] + rest);
    AtSplit(ts, n, [Punct(','), SP], rest);
    AtIndex(ts, n, [Punct(','), SP], 0);
  }

  lemma {:induction false} CommaReads(ts: seq<Token>, i: nat, e: nat)
    requires At(ts, i, [Punct(','), SP]) && e == i + 2
    ensures ItemReads(ts, i, e, [], [])
  {
    NoAliases(ts, i, [Punct(','), SP], e);
  }

  lemma {:induction false} FirstItemHere(ts: seq<Token>, i: nat, xs: seq<Item>)
    returns (vs: seq<G.Match<string>>, m: nat)
    requires |xs| > 1 && ItemOk(xs[0]) && At(ts, i, PList(PItems(xs)))
    ensures i <= m && ItemReads(ts, i, m, [xs[0]], vs) && ItemReads(ts, m, m + 2, [], [])
    ensures At(ts, m + 2, PList(PItems(xs[1..])))
    ensures i + |PList(PItems(xs))| == m + 2 + |PList(PItems(xs[1..]))|
  {
    m := i + |PItem(xs[0])|;
    ItemsPlaces(ts, i, xs);
    vs := ItemHere(ts, i, xs[0], m);
    CommaReads(ts, m, m + 2);
  }

  lemma {:induction false} ItemsHere(ts: seq<Token>, i: nat, xs: seq<Item>, e: nat)
    returns (us: seq<G.Match<string>>)
    requires xs != [] && forall x <- xs :: ItemOk(x)
    requires At(ts, i, PList(PItems(xs))) && e == i + |PList(PItems(xs))| && Ends(ts, e)
    ensures ItemReads(ts, i, e, xs, us)
    decreases xs
  {
    assert xs[0] in xs;
    if |xs| == 1 {
      assert PItems(xs) == [PItem(xs[0])] && xs == [xs[0]];
      us := ItemHere(ts, i, xs[0], e);
    } else {
      assert forall y <- xs[1..] :: y in xs;
      var vs, m := FirstItemHere(ts, i, xs);
      us := ItemsHere(ts, m + 2, xs[1..], e);
      us := ItemsGlue(G.AliasesAt(ts), i, m, e, xs, vs, us);
    }
  }

  lemma {:induction false} ItemsGlue(uses: seq<G.Found<string>>, i: nat, m: nat, e: nat, xs: seq<Item>,
                  vs: seq<G.Match<string>>, ws: seq<G.Match<string>>) returns (us: seq<G.Match<string>>)
    requires xs != [] && i <= m && m + 2 <= e
    requires Listed(uses, i, m, [xs[0]], vs)
    requires Listed(uses, m, m + 2, [], [])
    requires Listed(uses, m + 2, e, xs[1..], ws)
    ensures Listed(uses, i, e, xs, us)
  {
    ListedConcat(uses, m, m + 2, e, [], [], xs[1..], ws);
    assert [] + xs[1..] == xs[1..] && [] + ws == ws;
    ListedConcat(uses, i, m, e, [xs[0]], vs, xs[1..], ws);
    assert [xs[0]] + xs[1..] == xs;
    us := vs + ws;
  }

  // -------------------------------------------------------------- statements

  predicate SchemasOk(q: Query) { SchemaOk(q.from) && JoinSchemasOk(q.joins) }

  function AllRefs(q: Query): seq<G.TableRef> { [RefOf(q.from)] + RefsOf(q.joins) }

  /** Where the parts of a printed statement stand: the items from `a`, the tables from
      `h`, the joins from `b`, the remaining clauses from `c`. */
  ghost predicate Places(q: Query, ts: seq<Token>, a: nat, h: nat, b: nat, c: nat) {
    && At(ts, 0, PHead(q)) && a == |PHead(q)|
    && At(ts, a, PList(PItems(q.items))) && a + |PList(PItems(q.items))| + 1 == h
    && At(ts, h - 1, [SP])
    && At(ts, h, KwTable("FROM", q.from)) && b == h + |KwTable("FROM", q.from)| && Ends(ts, b)
    && At(ts, b, PJoins(q.joins)) && c == b + |PJoins(q.joins)|
    && At(ts, c, PTail(q)) && c + |PTail(q)| == |ts|
  }

  lemma {:induction false} AtSix(ts: seq<Token>, p1: seq<Token>, p2: seq<Token>, p3: seq<Token>,
                                 p4: seq<Token>, p5: seq<Token>, p6: seq<Token>,
                                 a: nat, g: nat, h: nat, b: nat, c: nat)
    requires ts == p1 + (p2 + p3) + (p4 + p5) + p6
    requires a == |p1| && g == a + |p2| && h == g + |p3| && b == h + |p4| && c == b + |p5|
    ensures At(ts, 0, p1) && At(ts, a, p2) && At(ts, g, p3)
    ensures At(ts, h, p4) && At(ts, b, p5) && At(ts, c, p6)
    ensures |ts| == c + |p6|
  {
  }

  lemma {:induction false} StatementPlaces(q: Query) returns (a: nat, h: nat, b: nat, c: nat)
    requires WellFormed(q)
    ensures Places(q, Print(q), a, h, b, c)
  {
    var ts := Print(q);
    a := |PHead(q)|;
    h := a + |PList(PItems(q.items))| + 1;
    b := h + |KwTable("FROM", q.from)|;
    c := b + |PJoins(q.joins)|;
    AtSix(ts, PHead(q), PList(PItems(q.items)), [SP], KwTable("FROM", q.from), PJoins(q.joins), PTail(q),
          a, h - 1, h, b, c);
  }

  lemma {:induction false} NoTableInTail()
    ensures {"FROM", "JOIN"} !! TAIL_WORDS && {"AS"} !! TAIL_WORDS
    ensures {"FROM", "JOIN"} <= STRUCTURE && {"AS"} <= STRUCTURE
  {
  }

  lemma {:induction false} TailQuiet(q: Query)
    requires WellFormed(q)
    ensures Without(PTail(q), {"FROM", "JOIN"}) && Without(PTail(q), {"AS"})
  {
    TailOnly(q);
    NoTableInTail();
    OnlyAvoids(PTail(q), TAIL_WORDS, {"FROM", "JOIN"});
    OnlyAvoids(PTail(q), TAIL_WORDS, {"AS"});
  }

  lemma {:induction false} FrontQuiet(q: Query)
    requires WellFormed(q)
    ensures Without(PHead(q), {"FROM", "JOIN"}) && Without(PHead(q), {"AS"})
    ensures Without(PList(PItems(q.items)), {"FROM", "JOIN"})
  {
    HeadSection(q);
    ItemsSection(q.items);
    assert Only(PHead(q), {"SELECT", "TOP"});
    OnlyAvoids(PHead(q), {"SELECT", "TOP"}, {"FROM", "JOIN"});
    OnlyAvoids(PHead(q), {"SELECT", "TOP"}, {"AS"});
    OnlyAvoids(PList(PItems(q.items)), {"AS"}, {"FROM", "JOIN"});
  }

  /** Past the end nothing is found. */
  lemma {:induction false} TailReads(q: Query, ts: seq<Token>, c: nat)
    requires WellFormed(q) && At(ts, c, PTail(q)) && c + |PTail(q)| == |ts|
    ensures G.FindAll(G.RefsAt(ts), c) == [] && G.FindAll(G.AliasesAt(ts), c) == []
  {
    TailQuiet(q);
    NoRefs(ts, c, PTail(q), |ts|);
    NoAliases(ts, c, PTail(q), |ts|);
  }

  lemma {:induction false} ValuesCons(r: G.Match<G.TableRef>, rs: seq<G.Match<G.TableRef>>)
    ensures Values([r] + rs) == [r.value] + Values(rs)
  {
  }

  lemma {:induction false} TablesRead(q: Query, ts: seq<Token>, h: nat, b: nat, c: nat)
    returns (rs: seq<G.Match<G.TableRef>>, us: seq<G.Match<string>>)
    requires WellFormed(q) && SchemasOk(q)
    requires At(ts, h, KwTable("FROM", q.from)) && b == h + |KwTable("FROM", q.from)| && Ends(ts, b)
    requires At(ts, b, PJoins(q.joins)) && c == b + |PJoins(q.joins)|
    ensures Reads(ts, h, c, rs, us) && Values(rs) == AllRefs(q)
  {
    var r, u := TableHere(ts, h, "FROM", q.from, b);
    rs, us := JoinsHere(ts, b, q.joins, c);
    ReadsConcat(ts, h, b, c, [r], [u], rs, us);
    ValuesCons(r, rs);
    rs, us := [r] + rs, [u] + us;
  }

  /** All tables under the approved schema: their references, and uses of AS inside them. */
  lemma {:induction false} FromReads(q: Query, ts: seq<Token>, h: nat, b: nat, c: nat)
    returns (rs: seq<G.Match<G.TableRef>>, us: seq<G.Match<string>>)
    requires WellFormed(q) && SchemasOk(q)
    requires At(ts, h, KwTable("FROM", q.from)) && b == h + |KwTable("FROM", q.from)| && Ends(ts, b)
    requires At(ts, b, PJoins(q.joins)) && c == b + |PJoins(q.joins)|
    requires At(ts, c, PTail(q)) && c + |PTail(q)| == |ts|
    ensures G.FindAll(G.RefsAt(ts), h) == rs && Values(rs) == AllRefs(q)
    ensures G.FindAll(G.AliasesAt(ts), h) == us && Inside(us, rs)
  {
    rs, us := TablesRead(q, ts, h, b, c);
    TailReads(q, ts, c);
  }

  lemma {:induction false} FromUnnamed(ts: seq<Token>, t: Table, js: seq<Join>, h: nat, b: nat)
    requires TableOk(t) && JoinsOk(js) && !(SchemaOk(t) && JoinSchemasOk(js))
    requires At(ts, h, KwTable("FROM", t)) && b == h + |KwTable("FROM", t)| && Ends(ts, b)
    requires At(ts, b, PJoins(js))
    ensures SomeUnnamed(G.FindAll(G.RefsAt(ts), h))
  {
    if SchemaOk(t) {
      JoinsUnnamed(ts, b, js);
      TableThenUnnamed(ts, h, t, b);
    } else {
      TableUnnamed(ts, h, "FROM", t);
    }
  }

  lemma {:induction false} TableThenUnnamed(ts: seq<Token>, h: nat, t: Table, b: nat)
    requires TableOk(t) && SchemaOk(t)
    requires At(ts, h, KwTable("FROM", t)) && b == h + |KwTable("FROM", t)| && Ends(ts, b)
    requires SomeUnnamed(G.FindAll(G.RefsAt(ts), b))
    ensures SomeUnnamed(G.FindAll(G.RefsAt(ts), h))
  {
    var r, _ := TableHere(ts, h, "FROM", t, b);
  }

  lemma {:induction false} FrontRefs(q: Query, ts: seq<Token>, a: nat, h: nat)
    requires WellFormed(q)
    requires At(ts, 0, PHead(q)) && a == |PHead(q)|
    requires At(ts, a, PList(PItems(q.items))) && a + |PList(PItems(q.items))| + 1 == h
    requires At(ts, h - 1, [SP])
    ensures G.Refs(ts) == G.FindAll(G.RefsAt(ts), h)
  {
    FrontQuiet(q);
    NoRefs(ts, 0, PHead(q), a);
    NoRefs(ts, a, PList(PItems(q.items)), h - 1);
    NoRefs(ts, h - 1, [SP], h);
  }

  lemma {:induction false} FrontUses(q: Query, ts: seq<Token>, a: nat, h: nat)
    returns (us: seq<G.Match<string>>)
    requires WellFormed(q)
    requires At(ts, 0, PHead(q)) && a == |PHead(q)|
    requires At(ts, a, PList(PItems(q.items))) && a + |PList(PItems(q.items))| + 1 == h
    requires At(ts, h - 1, [SP])
    ensures G.AsUses(ts) == us + G.FindAll(G.AliasesAt(ts), h)
    ensures Lists(us, q.items, a, h - 1)
  {
    FrontQuiet(q);
    NoAliases(ts, 0, PHead(q), a);
    AtIndex(ts, h - 1, [SP], 0);
    us := ItemsHere(ts, a, q.items, h - 1);
    NoAliases(ts, h - 1, [SP], h);
  }

  /** What the scans read from a whole printed statement. */
  lemma {:induction false} StatementReads(q: Query)
    returns (rs: seq<G.Match<G.TableRef>>, its: seq<G.Match<string>>, us: seq<G.Match<string>>, h: nat)
    requires WellFormed(q) && SchemasOk(q)
    ensures G.Refs(Print(q)) == rs && Values(rs) == AllRefs(q)
    ensures G.AsUses(Print(q)) == its + us
    ensures Lists(its, q.items, 0, h) && Inside(us, rs)
    ensures forall r <- rs :: h <= r.begin
  {
    var a, b, c;
    a, h, b, c := StatementPlaces(q);
    rs, us := FromReads(q, Print(q), h, b, c);
    FrontRefs(q, Print(q), a, h);
    its := FrontUses(q, Print(q), a, h);
    RefLengths(Print(q));
    FindBounds(G.RefsAt(Print(q)), h);
  }

  lemma {:induction false} RefLengths(ts: seq<Token>)
    ensures forall k :: 0 <= k < |ts| && G.RefsAt(ts)[k].Found? ==> 0 < G.RefsAt(ts)[k].len <= |ts| - k
  {
    forall k | 0 <= k < |ts| ensures G.RefsAt(ts)[k].Found? ==> 0 < G.RefsAt(ts)[k].len <= |ts| - k {
      RefsAtIndex(ts, k);
    }
  }

  /** A table outside the approved schema is refused. */
  lemma {:induction false} ForeignSchema(q: Query)
    requires WellFormed(q) && !SchemasOk(q)
    ensures !G.TablesApproved(G.Refs(Print(q)))
  {
    var a, h, b, c := StatementPlaces(q);
    FromUnnamed(Print(q), q.from, q.joins, h, b);
    FrontRefs(q, Print(q), a, h);
  }
}
