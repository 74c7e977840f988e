/** Exact acceptance: which printed statements the guardrail passes. */
module Acceptance {
  import opened Text
  import opened SqlAst
  import opened Printed
  import opened Scanning
  import opened Sections
  import opened Decoding
  import opened Tables
  import opened Clauses
  import opened Extraction
  import opened ListClauses
  import V = Vocabulary
  import G = Guardrail

  const OUTPUT_KEYS := {"PRODUCTID", "NAME", "CURRENTINVENTORY", "SAFETYSTOCKLEVEL"}

  /** The words a statement with table aliases `p` and `i` may use. */
  function Names(p: string, i: string): set<string> { G.AllowedIdentifiers({p, i}, OUTPUT_KEYS) }

  /** Product and ProductInventory, each once, under different aliases. */
  predicate TwoTables(q: Query) {
    && |q.joins| == 1
    && SchemaOk(q.from) && SchemaOk(q.joins[0].table)
    && {q.from.name.Key(), q.joins[0].table.name.Key()} == G.ALLOWED_TABLES
    && q.from.alias.Key() != q.joins[0].table.alias.Key()
  }

  function AliasFor(q: Query, table: string): string
    requires TwoTables(q)
  {
    if q.from.name.Key() == table then q.from.alias.Key() else q.joins[0].table.alias.Key()
  }

  function ProductAlias(q: Query): string
    requires TwoTables(q)
  {
    AliasFor(q, "PRODUCT")
  }

  function InventoryAlias(q: Query): string
    requires TwoTables(q)
  {
    AliasFor(q, "PRODUCTINVENTORY")
  }

  /** Output names in the guardrail's exact spelling. */
  predicate OutputsNamed(xs: seq<Item>) {
    forall x <- xs :: x.alias.Some? ==> x.alias.value.text in G.ALLOWED_OUTPUT_ALIASES
  }

  /** The ProductID equality, or a NOT that makes it one when glued to an approved word. */
  predicate ApprovedOn(on: Cond, p: string, i: string) {
    || PlainJoin(on, p, i)
    || ((NegatedJoin(on, p, i) || NegatedJoin(on, i, p))
        && on.c.lhs.table.value.Key() in Names(p, i))
  }

  predicate KeysKnown(ks: seq<OrderKey>, names: set<string>) {
    forall k <- ks :: V.ExprKnown(k.expr, names)
  }

  /** The approved family. */
  predicate Family(q: Query) {
    && 1 <= q.top <= G.MAXIMUM_RETURNED_ROWS
    && TwoTables(q)
    && var p, i := ProductAlias(q), InventoryAlias(q);
       && BoundItems(q.items, p, i) && OutputsNamed(q.items)
       && ApprovedOn(q.joins[0].on, p, i)
       && q.where.None?
       && GroupKeys(q.groupBy, p)
       && q.having.Some? && BelowSafetyStock(q.having.value, p, i)
       && FirstKey(q.orderBy) && KeysKnown(q.orderBy, Names(p, i))
  }

  // ----------------------------------------------------------- whole texts

  lemma {:induction false} LastChar(f: seq<Token>)
    requires Fragment(f)
    ensures Unlex(f) != "" && Unlex(f)[|Unlex(f)| - 1] != ';'
  {
    var last := f[|f| - 1];
    assert last in f;
    UnlexLast(f);
    assert TokenOk(last) && PunctOk(last);
    if last.Word? { assert last.text[|last.text| - 1] in last.text; }
  }

  lemma {:induction false} CleanKeeps(s: string)
    requires Trimmed(s) && s != "" && s[|s| - 1] != ';'
    ensures G.Clean(s) == s
  {
    StripTrims(s);
  }

  lemma {:induction false} FragmentUnchanged(f: seq<Token>)
    requires Fragment(f)
    ensures G.Clean(Unlex(f)) == Unlex(f) && Lex(Unlex(f)) == f
  {
    FragmentTrimmed(f);
    LastChar(f);
    CleanKeeps(Unlex(f));
    LexUnlex(f);
  }

  /** Cleaning and splitting give a printed statement back. */
  lemma {:induction false} Unchanged(q: Query)
    requires WellFormed(q)
    ensures G.Clean(SqlText(q)) == SqlText(q) && Lex(SqlText(q)) == Print(q)
  {
    PrintFragment(q);
    FragmentUnchanged(Print(q));
  }

  /** A printed statement reaches the rules unchanged. */
  lemma {:induction false} Reaches(q: Query)
    requires WellFormed(q)
    ensures G.Decision(SqlText(q))
         == if V.StarFree(Print(q)) && G.Approved(Print(q)) then G.Accepted(SqlText(q)) else G.Rejected
  {
    Unchanged(q);
    V.PlainStatement(q);
  }

  // ----------------------------------------------------------------- tables

  /** The table rules, on the references alone. */
  predicate RefsApproved(v: seq<G.TableRef>) {
    && v != []
    && (forall r <- v :: r.table in G.ALLOWED_TABLES && r.alias.Some?)
    && (forall a, b :: 0 <= a < b < |v| ==> v[a].table != v[b].table && v[a].alias != v[b].alias)
  }

  predicate Named(v: seq<G.TableRef>, table: string) { exists r <- v :: r.table == table }

  lemma {:induction false} TablesByValue(rs: seq<G.Match<G.TableRef>>)
    ensures G.TablesApproved(rs) <==> RefsApproved(Values(rs))
  {
    var v := Values(rs);
    if RefsApproved(v) {
      forall r | r in rs ensures r.value.table in G.ALLOWED_TABLES && r.value.alias.Some? {
        var k :| 0 <= k < |rs| && r == rs[k];
        assert v[k] in v;
      }
    }
    if G.TablesApproved(rs) {
      forall r | r in v ensures r.table in G.ALLOWED_TABLES && r.alias.Some? {
        var k :| 0 <= k < |v| && r == v[k];
        assert rs[k] in rs;
      }
    }
  }

  lemma {:induction false} ThreeRefs(v: seq<G.TableRef>)
    requires |v| > 2
    ensures !RefsApproved(v)
  {
    assert v[0] in v && v[1] in v && v[2] in v;
  }

  lemma {:induction false} TwoRefs(a: G.TableRef, b: G.TableRef)
    requires a.alias.Some? && b.alias.Some?
    ensures RefsApproved([a, b]) && Named([a, b], "PRODUCT") && Named([a, b], "PRODUCTINVENTORY")
       <==> {a.table, b.table} == G.ALLOWED_TABLES && a.alias != b.alias
  {
    var v := [a, b];
    assert v[0] == a && v[1] == b && a in v && b in v;
    if {a.table, b.table} == G.ALLOWED_TABLES {
      assert "PRODUCT" in {a.table, b.table} && "PRODUCTINVENTORY" in {a.table, b.table};
      assert "PRODUCT" != "PRODUCTINVENTORY";
    }
  }

  /** Rules 8 and 9 with the check for both tables. */
  lemma {:induction false} TablesRule(q: Query, rs: seq<G.Match<G.TableRef>>)
    requires SchemasOk(q) && Values(rs) == AllRefs(q)
    ensures G.TablesApproved(rs) && G.BothTables(rs) <==> TwoTables(q)
  {
    var v := AllRefs(q);
    TablesByValue(rs);
    if |q.joins| == 1 {
      assert q.joins[0] in q.joins;
      assert v == [RefOf(q.from), RefOf(q.joins[0].table)];
      TwoRefs(RefOf(q.from), RefOf(q.joins[0].table));
    } else {
      if |v| > 2 { ThreeRefs(v); }
      if |v| == 1 { assert v == [v[0]]; }
    }
  }

  lemma {:induction false} AliasFound(rs: seq<G.Match<G.TableRef>>, table: string)
    requires |rs| == 2 && rs[0].value.alias.Some? && rs[1].value.alias.Some?
    requires rs[0].value.table == table || rs[1].value.table == table
    ensures G.AliasOf(rs, table)
         == if rs[0].value.table == table then rs[0].value.alias.value else rs[1].value.alias.value
  {
    assert rs[1..][0] == rs[1];
  }

  lemma {:induction false} Aliases(q: Query, rs: seq<G.Match<G.TableRef>>)
    requires TwoTables(q) && Values(rs) == AllRefs(q)
    ensures G.AliasOf(rs, "PRODUCT") == ProductAlias(q)
    ensures G.AliasOf(rs, "PRODUCTINVENTORY") == InventoryAlias(q)
    ensures G.TableAliases(rs) == {ProductAlias(q), InventoryAlias(q)}
  {
    var v := AllRefs(q);
    assert |rs| == |v| == 2;
    assert v[0] == rs[0].value && v[1] == rs[1].value;
    assert "PRODUCT" in G.ALLOWED_TABLES && "PRODUCTINVENTORY" in G.ALLOWED_TABLES;
    assert "PRODUCT" != "PRODUCTINVENTORY";
    AliasFound(rs, "PRODUCT");
    AliasFound(rs, "PRODUCTINVENTORY");
    assert rs[0] in rs && rs[1] in rs;
    var as0, as1 := rs[0].value.alias.value, rs[1].value.alias.value;
    assert G.TableAliases(rs) == {as0, as1};
  }

  // ---------------------------------------------------------------- outputs

  /** Rule 10. */
  lemma {:induction false} OutputsRule(xs: seq<Item>, its: seq<G.Match<string>>, us: seq<G.Match<string>>,
                                       rs: seq<G.Match<G.TableRef>>, h: nat)
    requires Lists(its, xs, 0, h) && Inside(us, rs) && (forall r <- rs :: h <= r.begin)
    ensures G.OutputsApproved(its + us, rs) <==> OutputsNamed(xs)
  {
    if OutputsNamed(xs) {
      forall u | u in its + us ensures G.Within(u.begin, rs) || u.value in G.ALLOWED_OUTPUT_ALIASES {
        if u in its { assert Uses(its, u.value); assert Declares(xs, u.value); }
      }
    }
    if G.OutputsApproved(its + us, rs) {
      forall x | x in xs && x.alias.Some? ensures x.alias.value.text in G.ALLOWED_OUTPUT_ALIASES {
        assert AliasIs(x, x.alias.value.text);
        assert Uses(its, x.alias.value.text);
        var u :| u in its && u.value == x.alias.value.text;
        assert u in its + us;
      }
    }
  }

  /** The output names the guardrail collects. */
  function OutputNames(xs: seq<Item>): set<string> {
    set x | x in xs && x.alias.Some? :: x.alias.value.Key()
  }

  lemma {:induction false} OutputsCollected(xs: seq<Item>, its: seq<G.Match<string>>, us: seq<G.Match<string>>,
                                            rs: seq<G.Match<G.TableRef>>, h: nat)
    requires Lists(its, xs, 0, h) && Inside(us, rs) && (forall r <- rs :: h <= r.begin)
    ensures G.OutputAliases(its + us, rs) == OutputNames(xs)
  {
    forall w | w in OutputNames(xs) ensures w in G.OutputAliases(its + us, rs) {
      var x :| x in xs && x.alias.Some? && w == x.alias.value.Key();
      assert AliasIs(x, x.alias.value.text);
      assert Uses(its, x.alias.value.text);
      var u :| u in its && u.value == x.alias.value.text;
      assert u in its + us;
    }
    forall w | w in G.OutputAliases(its + us, rs) ensures w in OutputNames(xs) {
      var u :| u in its + us && !G.Within(u.begin, rs) && w == Upper(u.value);
      assert Uses(its, u.value);
      assert Declares(xs, u.value);
      var x :| x in xs && AliasIs(x, u.value);
    }
  }

  lemma {:induction false} AllOutputs(xs: seq<Item>, p: string, i: string)
    requires BoundItems(xs, p, i)
    ensures OutputNames(xs) == OUTPUT_KEYS
  {
    forall k | 0 <= k < 4 ensures OutputOf(xs[k]) in OUTPUT_KEYS && OutputOf(xs[k]) in OutputNames(xs) {
      assert xs[k] in xs && Bound(xs[k], p, i);
    }
    FourOfFour(OutputOf(xs[0]), OutputOf(xs[1]), OutputOf(xs[2]), OutputOf(xs[3]));
    forall w | w in OutputNames(xs) ensures w in OUTPUT_KEYS {
      var x :| x in xs && x.alias.Some? && w == x.alias.value.Key();
      assert Bound(x, p, i);
    }
  }

  lemma {:induction false} FourOfFour(a: string, b: string, c: string, d: string)
    requires {a, b, c, d} <= OUTPUT_KEYS
    requires a != b && a != c && a != d && b != c && b != d && c != d
    ensures OUTPUT_KEYS <= {a, b, c, d}
  {
    FourKeys();
    assert |OUTPUT_KEYS - {a, b, c, d}| == |OUTPUT_KEYS| - |{a, b, c, d}|;
  }

  lemma {:induction false} FourKeys()
    ensures |OUTPUT_KEYS| == 4
  {
  }

  // ------------------------------------------------------------- vocabulary

  lemma {:induction false} WordsKnown(p: string, i: string)
    ensures p in Names(p, i) && i in Names(p, i) && OUTPUT_KEYS <= Names(p, i)
    ensures "QUANTITY" in Names(p, i) && "PRODUCTION" in Names(p, i)
    ensures G.ALLOWED_TABLES <= Names(p, i) && G.GROUP_BY_COLUMNS <= Names(p, i)
    ensures G.RESERVED_WORDS <= Names(p, i)
  {
  }

  lemma {:induction false} ItemsKnown(xs: seq<Item>, p: string, i: string)
    requires BoundItems(xs, p, i)
    ensures forall x <- xs :: V.ItemKnown(x, Names(p, i))
  {
    forall x | x in xs ensures V.ItemKnown(x, Names(p, i)) {
      assert Bound(x, p, i);
      WordsKnown(p, i);
    }
  }

  lemma {:induction false} OnKnown(on: Cond, p: string, i: string)
    requires JoinAccepted(on, p, i)
    ensures V.CondKnown(on, Names(p, i)) <==> ApprovedOn(on, p, i)
  {
    WordsKnown(p, i);
  }

  lemma {:induction false} HavingKnown(c: Cond, p: string, i: string)
    requires BelowSafetyStock(c, p, i)
    ensures V.CondKnown(c, Names(p, i))
  {
    WordsKnown(p, i);
  }

  /** What the clause checks establish. */
  predicate ClausesHold(q: Query, p: string, i: string) {
    && |q.joins| == 1 && JoinAccepted(q.joins[0].on, p, i) && q.where.None?
    && GroupKeys(q.groupBy, p)
    && q.having.Some? && BelowSafetyStock(q.having.value, p, i)
    && BoundItems(q.items, p, i)
  }

  /** Given the clause checks, rule 11 is left with the ON and the later ORDER BY keys. */
  lemma {:induction false} KnownRest(q: Query, p: string, i: string)
    requires TwoTables(q) && p == ProductAlias(q) && i == InventoryAlias(q)
    requires ClausesHold(q, p, i)
    ensures V.QueryKnown(q, Names(p, i))
        <==> ApprovedOn(q.joins[0].on, p, i) && KeysKnown(q.orderBy, Names(p, i))
  {
    ItemsKnown(q.items, p, i);
    OnKnown(q.joins[0].on, p, i);
    HavingKnown(q.having.value, p, i);
    assert q.joins == [q.joins[0]];
  }

  // ------------------------------------------------------------------ rules

  lemma {:induction false} ClausesRule(q: Query, p: string, i: string)
    requires WellFormed(q) && |q.joins| == 1 && WordText(p) && WordText(i)
    ensures G.TopAt(Print(q)).Some?
    ensures G.ClausesApproved(Print(q), p, i) <==> ClausesHold(q, p, i)
  {
    assert q.joins == [q.joins[0]];
    JoinRule(q, q.joins[0], p, i);
    GroupRule(q, p);
    HavingRule(q, p, i);
    ItemsRule(q, p, i);
  }

  lemma {:induction false} AliasWords(q: Query)
    requires WellFormed(q) && TwoTables(q)
    ensures WordText(ProductAlias(q)) && WordText(InventoryAlias(q))
  {
    assert q.joins[0] in q.joins;
    KeyWord(q.from.alias);
    KeyWord(q.joins[0].table.alias);
  }

  /** The rules that do not concern the tables. */
  predicate OtherRules(q: Query, names: set<string>) {
    && 1 <= q.top <= G.MAXIMUM_RETURNED_ROWS
    && OutputsNamed(q.items)
    && V.QueryKnown(q, names)
    && FirstKey(q.orderBy)
  }

  lemma {:induction false} ApprovedMeans(q: Query, rs: seq<G.Match<G.TableRef>>, uses: seq<G.Match<string>>,
                                         names: set<string>)
    requires WellFormed(q) && TwoTables(q)
    requires G.Refs(Print(q)) == rs && G.AsUses(Print(q)) == uses
    requires G.TablesApproved(rs) && G.BothTables(rs)
    requires G.OutputsApproved(uses, rs) <==> OutputsNamed(q.items)
    requires names == G.AllowedIdentifiers(G.TableAliases(rs), G.OutputAliases(uses, rs))
    requires G.AliasOf(rs, "PRODUCT") == ProductAlias(q)
    requires G.AliasOf(rs, "PRODUCTINVENTORY") == InventoryAlias(q)
    ensures V.StarFree(Print(q)) && G.Approved(Print(q))
       <==> OtherRules(q, names) && ClausesHold(q, ProductAlias(q), InventoryAlias(q))
  {
    SelectRule(q);
    V.StatementVocabulary(q, names);
    OrderExists(q);
    FirstKeyRule(q);
    AliasWords(q);
    ClausesRule(q, ProductAlias(q), InventoryAlias(q));
  }

  lemma {:induction false} FamilyMeans(q: Query, names: set<string>)
    requires TwoTables(q)
    requires names == G.AllowedIdentifiers({ProductAlias(q), InventoryAlias(q)}, OutputNames(q.items))
    ensures OtherRules(q, names) && ClausesHold(q, ProductAlias(q), InventoryAlias(q)) <==> Family(q)
  {
    var p, i := ProductAlias(q), InventoryAlias(q);
    if BoundItems(q.items, p, i) { AllOutputs(q.items, p, i); }
    if ClausesHold(q, p, i) { KnownRest(q, p, i); }
  }

  lemma {:induction false} ApprovedFamily(q: Query)
    requires WellFormed(q) && SchemasOk(q)
    ensures V.StarFree(Print(q)) && G.Approved(Print(q)) <==> Family(q)
  {
    var rs, its, us, h := StatementReads(q);
    TablesRule(q, rs);
    if TwoTables(q) {
      Aliases(q, rs);
      OutputsRule(q.items, its, us, rs, h);
      OutputsCollected(q.items, its, us, rs, h);
      var names := G.AllowedIdentifiers(G.TableAliases(rs), G.OutputAliases(its + us, rs));
      ApprovedMeans(q, rs, its + us, names);
      FamilyMeans(q, names);
    }
  }

  /** Exact acceptance: the guardrail passes a printed statement, and returns it unchanged,
      if and only if the statement is in the approved family. */
  lemma {:induction false} ExactAcceptance(q: Query)
    requires WellFormed(q)
    ensures G.Decision(SqlText(q)) == if Family(q) then G.Accepted(SqlText(q)) else G.Rejected
  {
    Reaches(q);
    SchemasOfTwo(q);
    if SchemasOk(q) {
      ApprovedFamily(q);
    } else {
      ForeignSchema(q);
    }
  }

  lemma {:induction false} SchemasOfTwo(q: Query)
    ensures TwoTables(q) ==> SchemasOk(q)
  {
    if TwoTables(q) { assert q.joins == [q.joins[0]]; }
  }
}
