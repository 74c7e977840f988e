/** The guardrail as it runs (`validate`): one pass per rule, each filling its table of
    aliases or set of seen names, and together deciding exactly as `Guardrail.Decision`. */
module Validation {
  import opened Text
  import opened Guardrail
  import CommaSplit

  // ------------------------------------------------------- tables, rules 8 and 9

  /** The table of aliases for the references read so far. */
  predicate Binds(byAlias: map<string, string>, refs: seq<Match<TableRef>>) {
    && (forall r <- refs :: r.value.alias.Some? && r.value.alias.value in byAlias
                         && byAlias[r.value.alias.value] == r.value.table)
    && (forall a <- byAlias :: exists r <- refs :: r.value.alias == Some(a) && r.value.table == byAlias[a])
  }

  lemma {:induction false} BindsMore(byAlias: map<string, string>, refs: seq<Match<TableRef>>, r: Match<TableRef>)
    requires Binds(byAlias, refs) && r.value.alias.Some? && r.value.alias.value !in byAlias
    ensures Binds(byAlias[r.value.alias.value := r.value.table], refs + [r])
  {
    var more := byAlias[r.value.alias.value := r.value.table];
    assert r in refs + [r];
    forall a | a in more ensures exists s <- refs + [r] :: s.value.alias == Some(a) && s.value.table == more[a] {
      if a in byAlias && a != r.value.alias.value {
        var s :| s in refs && s.value.alias == Some(a) && s.value.table == byAlias[a];
        assert s in refs + [r];
      }
    }
  }

  lemma {:induction false} AliasTaken(byAlias: map<string, string>, refs: seq<Match<TableRef>>, r: Match<TableRef>)
    requires Binds(byAlias, refs) && r.value.alias.Some? && r.value.alias.value in byAlias
    ensures !TablesApproved(refs + [r])
  {
    var all := refs + [r];
    var s :| s in refs && s.value.alias == r.value.alias;
    var k :| 0 <= k < |refs| && refs[k] == s;
    assert all[k].value.alias == all[|refs|].value.alias;
  }

  lemma {:induction false} TableTaken(byAlias: map<string, string>, refs: seq<Match<TableRef>>, r: Match<TableRef>)
    requires Binds(byAlias, refs) && r.value.table in byAlias.Values
    ensures !TablesApproved(refs + [r])
  {
    var all := refs + [r];
    var a :| a in byAlias && byAlias[a] == r.value.table;
    var s :| s in refs && s.value.alias == Some(a) && s.value.table == byAlias[a];
    var k :| 0 <= k < |refs| && refs[k] == s;
    assert all[k].value.table == all[|refs|].value.table;
  }

  lemma {:induction false} TableFresh(byAlias: map<string, string>, refs: seq<Match<TableRef>>, r: Match<TableRef>)
    requires Binds(byAlias, refs) && (refs != [] ==> TablesApproved(refs))
    requires r.value.table in ALLOWED_TABLES && r.value.alias.Some?
    requires r.value.alias.value !in byAlias && r.value.table !in byAlias.Values
    ensures TablesApproved(refs + [r])
  {
    var all := refs + [r];
    forall k | 0 <= k < |refs|
      ensures all[k] == refs[k] && refs[k] in refs
      ensures refs[k].value.alias != r.value.alias && refs[k].value.table != r.value.table
    {
      assert refs[k] in refs;
    }
  }

  /** A new reference is refused exactly when its table or alias is missing, foreign or taken. */
  lemma {:induction false} TablesApprovedMore(byAlias: map<string, string>, refs: seq<Match<TableRef>>, r: Match<TableRef>)
    requires Binds(byAlias, refs) && (refs != [] ==> TablesApproved(refs))
    ensures TablesApproved(refs + [r])
       <==> r.value.table in ALLOWED_TABLES && r.value.alias.Some?
            && r.value.alias.value !in byAlias && r.value.table !in byAlias.Values
  {
    assert r in refs + [r];
    if r.value.alias.Some? && r.value.alias.value in byAlias { AliasTaken(byAlias, refs, r); }
    else if r.value.table in byAlias.Values { TableTaken(byAlias, refs, r); }
    else if r.value.alias.Some? && r.value.table in ALLOWED_TABLES { TableFresh(byAlias, refs, r); }
  }

  lemma {:induction false} TablesApprovedPrefix(refs: seq<Match<TableRef>>, n: nat)
    requires 0 < n <= |refs|
    ensures TablesApproved(refs) ==> TablesApproved(refs[..n])
  {
    assert forall r <- refs[..n] :: r in refs;
  }

  method CollectTables(refs: seq<Match<TableRef>>) returns (ok: bool, byAlias: map<string, string>)
    ensures ok <==> TablesApproved(refs)
    ensures ok ==> Binds(byAlias, refs)
  {
    byAlias := map[];
    for k := 0 to |refs|
      invariant k > 0 ==> TablesApproved(refs[..k])
      invariant Binds(byAlias, refs[..k])
    {
      var r := refs[k].value;
      ghost var before := refs[..k];
      assert refs[..k + 1] == before + [refs[k]];
      TablesApprovedMore(byAlias, before, refs[k]);
      if r.table !in ALLOWED_TABLES || r.alias.None?
         || r.alias.value in byAlias || r.table in byAlias.Values {
        TablesApprovedPrefix(refs, k + 1);
        return false, byAlias;
      }
      BindsMore(byAlias, before, refs[k]);
      byAlias := byAlias[r.alias.value := r.table];
    }
    assert refs[..|refs|] == refs;
    ok := refs != [];
  }

  lemma {:induction false} AliasOfBound(refs: seq<Match<TableRef>>, r: Match<TableRef>)
    requires TablesApproved(refs) && r in refs
    ensures AliasOf(refs, r.value.table) == r.value.alias.value
  {
    var k :| 0 <= k < |refs| && refs[k] == r;
    AliasAtIndex(refs, k);
  }

  lemma {:induction false} AliasAtIndex(refs: seq<Match<TableRef>>, k: nat)
    requires k < |refs| && refs[k].value.alias.Some?
    requires forall a, b :: 0 <= a < b < |refs| ==> refs[a].value.table != refs[b].value.table
    ensures AliasOf(refs, refs[k].value.table) == refs[k].value.alias.value
  {
    if k > 0 {
      assert refs[1..][k - 1] == refs[k];
      AliasAtIndex(refs[1..], k - 1);
    }
  }

  // ------------------------------------------------------------ outputs, rule 10

  method CollectOutputs(uses: seq<Match<string>>, refs: seq<Match<TableRef>>)
    returns (ok: bool, outputs: set<string>)
    ensures ok <==> OutputsApproved(uses, refs)
    ensures ok ==> (set o | o in outputs :: Upper(o)) == OutputAliases(uses, refs)
  {
    outputs := {};
    for k := 0 to |uses|
      invariant forall m :: 0 <= m < k ==> Within(uses[m].begin, refs) || uses[m].value in ALLOWED_OUTPUT_ALIASES
      invariant forall o :: o in outputs <==> exists m :: 0 <= m < k && !Within(uses[m].begin, refs) && uses[m].value == o
    {
      var u := uses[k];
      if !Within(u.begin, refs) {
        outputs := outputs + {u.value};
        if u.value !in ALLOWED_OUTPUT_ALIASES {
          assert u in uses;
          return false, outputs;
        }
      }
    }
    ok := true;
    OutputSets(uses, refs, outputs);
  }

  lemma {:induction false} OutputSets(uses: seq<Match<string>>, refs: seq<Match<TableRef>>, outputs: set<string>)
    requires forall o :: o in outputs <==> exists m :: 0 <= m < |uses| && !Within(uses[m].begin, refs) && uses[m].value == o
    ensures (set o | o in outputs :: Upper(o)) == OutputAliases(uses, refs)
  {
    var ups := set o | o in outputs :: Upper(o);
    forall w | w in ups ensures w in OutputAliases(uses, refs) {
      var o :| o in outputs && w == Upper(o);
      var m :| 0 <= m < |uses| && !Within(uses[m].begin, refs) && uses[m].value == o;
      assert uses[m] in uses;
    }
    forall w | w in OutputAliases(uses, refs) ensures w in ups {
      var u :| u in uses && !Within(u.begin, refs) && w == Upper(u.value);
      var m :| 0 <= m < |uses| && uses[m] == u;
      assert u.value in outputs;
    }
  }

  // -------------------------------------------------------- identifiers, rule 11

  method CheckIdentifiers(ts: seq<Token>, allowed: set<string>) returns (ok: bool)
    ensures ok <==> IdentifiersApproved(ts, allowed)
  {
    for k := 0 to |ts|
      invariant IdentifiersApproved(ts[..k], allowed)
    {
      assert ts[..k + 1] == ts[..k] + [ts[k]];
      if ts[k].Word? && IdentOf(ts[k].text) != "" && Upper(IdentOf(ts[k].text)) !in allowed {
        assert ts[k] in ts;
        return false;
      }
    }
    assert ts[..|ts|] == ts;
    ok := true;
  }

  // -------------------------------------------------------------- GROUP BY keys

  /** `seen` holds the keys of the items read so far, each once, all of them required. */
  ghost predicate Seen(seen: set<string>, keys: seq<string>, required: set<string>) {
    && (forall c :: c in seen <==> c in keys)
    && (forall a, b :: 0 <= a < b < |keys| ==> keys[a] != keys[b])
    && |seen| == |keys| && seen <= required
  }

  lemma {:induction false} SeenMore(seen: set<string>, keys: seq<string>, required: set<string>, key: string)
    requires Seen(seen, keys, required) && key in required && key !in seen
    ensures Seen(seen + {key}, keys + [key], required)
  {
  }

  lemma {:induction false} SeenAgain(seen: set<string>, keys: seq<string>, required: set<string>, key: string)
    requires Seen(seen, keys, required) && key in seen
    ensures exists m :: 0 <= m < |keys| && keys[m] == key
  {
  }

  /** Nothing required is missing once as many keys were seen as are required. */
  lemma {:induction false} NoneMissing(seen: set<string>, keys: seq<string>, required: set<string>)
    requires Seen(seen, keys, required) && |keys| == |required|
    ensures required - seen == {}
  {
    assert |required - seen| == |required| - |seen|;
  }

  function GroupColumns(items: seq<string>): (r: seq<string>)
    ensures |r| == |items| && forall k :: 0 <= k < |r| ==> r[k] == GroupColumn(items[k])
  {
    seq(|items|, k requires 0 <= k < |items| => GroupColumn(items[k]))
  }

  /** What the loop over the keys asks of one key, in the loop's own order. */
  lemma {:induction false} GroupKeyParts(item: string, byAlias: map<string, string>, p: string)
    requires p in byAlias && forall a <- byAlias :: byAlias[a] == "PRODUCT" <==> a == p
    ensures var k := QualifiedColumn(Normalize(item));
      GroupKeyApproved(item, p) <==>
        k.Some? && k.value.0 in byAlias && byAlias[k.value.0] == "PRODUCT" && k.value.1 in GROUP_BY_COLUMNS
    ensures var k := QualifiedColumn(Normalize(item)); k.Some? ==> GroupColumn(item) == k.value.1
  {
  }

  lemma {:induction false} GroupRepeats(items: seq<string>, p: string, m: nat, k: nat)
    requires m < k < |items| && GroupColumn(items[m]) == GroupColumn(items[k])
    ensures !GroupApproved(items, p)
  {
  }

  /** The state of the key loop after the items read so far. */
  ghost predicate KeysRead(items: seq<string>, seen: set<string>, p: string) {
    (forall x <- items :: GroupKeyApproved(x, p)) && Seen(seen, GroupColumns(items), GROUP_BY_COLUMNS)
  }

  lemma {:induction false} KeyRead(items: seq<string>, k: nat, seen: set<string>, p: string)
    requires k < |items| && KeysRead(items[..k], seen, p)
    requires GroupKeyApproved(items[k], p) && GroupColumn(items[k]) !in seen
    ensures KeysRead(items[..k + 1], seen + {GroupColumn(items[k])}, p)
  {
    assert items[..k + 1] == items[..k] + [items[k]];
    assert GroupColumns(items[..k + 1]) == GroupColumns(items[..k]) + [GroupColumn(items[k])];
    SeenMore(seen, GroupColumns(items[..k]), GROUP_BY_COLUMNS, GroupColumn(items[k]));
  }

  lemma {:induction false} KeyRepeated(items: seq<string>, k: nat, seen: set<string>, p: string)
    requires k < |items| && KeysRead(items[..k], seen, p) && GroupColumn(items[k]) in seen
    ensures !GroupApproved(items, p)
  {
    SeenAgain(seen, GroupColumns(items[..k]), GROUP_BY_COLUMNS, GroupColumn(items[k]));
    var m :| 0 <= m < k && GroupColumn(items[m]) == GroupColumn(items[k]);
    GroupRepeats(items, p, m, k);
  }

  lemma {:induction false} KeysDone(items: seq<string>, seen: set<string>, p: string)
    requires KeysRead(items, seen, p) && |items| == |GROUP_BY_COLUMNS|
    ensures GroupApproved(items, p) && GROUP_BY_COLUMNS - seen == {}
  {
    NoneMissing(seen, GroupColumns(items), GROUP_BY_COLUMNS);
    var cs := GroupColumns(items);
    forall a, b | 0 <= a < b < |items| ensures GroupColumn(items[a]) != GroupColumn(items[b]) {
      assert cs[a] != cs[b];
    }
  }

  lemma {:induction false} KeyRefused(items: seq<string>, k: nat, p: string)
    requires k < |items| && !GroupKeyApproved(items[k], p)
    ensures !GroupApproved(items, p)
  {
    assert items[k] in items;
  }

  /** The key loop with its set of seen columns; its closing check for missing keys never fires. */
  method CheckGroupKeys(items: seq<string>, byAlias: map<string, string>, p: string) returns (ok: bool)
    requires p in byAlias && forall a <- byAlias :: byAlias[a] == "PRODUCT" <==> a == p
    ensures ok <==> GroupApproved(items, p)
  {
    if |items| != |GROUP_BY_COLUMNS| { return false; }
    var seen: set<string> := {};
    for k := 0 to |items|
      invariant KeysRead(items[..k], seen, p)
    {
      var parsed := QualifiedColumn(Normalize(items[k]));
      GroupKeyParts(items[k], byAlias, p);
      if !GroupKeyApproved(items[k], p) { KeyRefused(items, k, p); }
      if parsed.None? { return false; }
      var alias, column := parsed.value.0, parsed.value.1;
      if alias !in byAlias || byAlias[alias] != "PRODUCT" { return false; }
      if column !in GROUP_BY_COLUMNS { return false; }
      if column in seen {
        KeyRepeated(items, k, seen, p);
        return false;
      }
      KeyRead(items, k, seen, p);
      seen := seen + {column};
    }
    assert items[..|items|] == items;
    KeysDone(items, seen, p);
    ok := GROUP_BY_COLUMNS - seen == {};
  }

  // --------------------------------------------------------------- SELECT items

  const EXPECTED_OUTPUTS := {"PRODUCTID", "NAME", "CURRENTINVENTORY", "SAFETYSTOCKLEVEL"}

  lemma {:induction false} FourOutputs()
    ensures |EXPECTED_OUTPUTS| == 4
  {
  }

  function ItemKeys(items: seq<string>): (r: seq<string>)
    ensures |r| == |items| && forall k :: 0 <= k < |r| ==> r[k] == ItemKey(items[k])
  {
    seq(|items|, k requires 0 <= k < |items| => ItemKey(items[k]))
  }

  lemma {:induction false} Expected(alias: string, p: string, i: string)
    ensures ExpectedExpr(alias, p, i).Some? <==> alias in EXPECTED_OUTPUTS
  {
  }

  lemma {:induction false} ItemParts(item: string, p: string, i: string)
    ensures var x := ParseItem(Lex(item), 0);
      SelectItemApproved(item, p, i) <==>
        && x.Some?
        && ExpectedExpr(Upper(x.value.alias), p, i).Some?
        && Normalize(Unlex(x.value.expr)) == ExpectedExpr(Upper(x.value.alias), p, i).value
    ensures var x := ParseItem(Lex(item), 0); x.Some? ==> ItemKey(item) == Upper(x.value.alias)
  {
  }

  lemma {:induction false} ItemRepeats(items: seq<string>, p: string, i: string, m: nat, k: nat)
    requires m < k < |items| && ItemKey(items[m]) == ItemKey(items[k])
    ensures !SelectListApproved(items, p, i)
  {
  }

  /** The state of the item loop after the items read so far. */
  ghost predicate ItemsRead(items: seq<string>, seen: set<string>, p: string, i: string) {
    (forall x <- items :: SelectItemApproved(x, p, i)) && Seen(seen, ItemKeys(items), EXPECTED_OUTPUTS)
  }

  lemma {:induction false} ItemRead(items: seq<string>, k: nat, seen: set<string>, p: string, i: string)
    requires k < |items| && ItemsRead(items[..k], seen, p, i)
    requires SelectItemApproved(items[k], p, i) && ItemKey(items[k]) !in seen
    ensures ItemsRead(items[..k + 1], seen + {ItemKey(items[k])}, p, i)
  {
    assert items[..k + 1] == items[..k] + [items[k]];
    assert ItemKeys(items[..k + 1]) == ItemKeys(items[..k]) + [ItemKey(items[k])];
    Expected(ItemKey(items[k]), p, i);
    SeenMore(seen, ItemKeys(items[..k]), EXPECTED_OUTPUTS, ItemKey(items[k]));
  }

  lemma {:induction false} ItemRepeated(items: seq<string>, k: nat, seen: set<string>, p: string, i: string)
    requires k < |items| && ItemsRead(items[..k], seen, p, i) && ItemKey(items[k]) in seen
    ensures !SelectListApproved(items, p, i)
  {
    SeenAgain(seen, ItemKeys(items[..k]), EXPECTED_OUTPUTS, ItemKey(items[k]));
    var m :| 0 <= m < k && ItemKey(items[m]) == ItemKey(items[k]);
    ItemRepeats(items, p, i, m, k);
  }

  lemma {:induction false} ItemsDone(items: seq<string>, seen: set<string>, p: string, i: string)
    requires ItemsRead(items, seen, p, i) && |items| == |EXPECTED_OUTPUTS| == 4
    ensures SelectListApproved(items, p, i) && EXPECTED_OUTPUTS - seen == {}
  {
    NoneMissing(seen, ItemKeys(items), EXPECTED_OUTPUTS);
    ItemKeysApart(items);
    ItemsTogether(items, p, i);
  }

  lemma {:induction false} ItemsTogether(items: seq<string>, p: string, i: string)
    requires |items| == 4 && forall x <- items :: SelectItemApproved(x, p, i)
    requires forall a, b :: 0 <= a < b < |items| ==> ItemKey(items[a]) != ItemKey(items[b])
    ensures SelectListApproved(items, p, i)
  {
  }

  lemma {:induction false} ItemKeysApart(items: seq<string>)
    requires forall a, b :: 0 <= a < b < |ItemKeys(items)| ==> ItemKeys(items)[a] != ItemKeys(items)[b]
    ensures forall a, b :: 0 <= a < b < |items| ==> ItemKey(items[a]) != ItemKey(items[b])
  {
    forall a, b | 0 <= a < b < |items| ensures ItemKey(items[a]) != ItemKey(items[b]) {
      assert ItemKeys(items)[a] != ItemKeys(items)[b];
    }
  }

  lemma {:induction false} ItemRefused(items: seq<string>, k: nat, p: string, i: string)
    requires k < |items| && !SelectItemApproved(items[k], p, i)
    ensures !SelectListApproved(items, p, i)
  {
    assert items[k] in items;
  }

  /** The item loop with its set of seen outputs; its closing check for missing outputs never fires. */
  method CheckSelectItems(items: seq<string>, p: string, i: string) returns (ok: bool)
    ensures ok <==> SelectListApproved(items, p, i)
  {
    FourOutputs();
    if |items| != |EXPECTED_OUTPUTS| { return false; }
    var seen: set<string> := {};
    for k := 0 to |items|
      invariant ItemsRead(items[..k], seen, p, i)
    {
      var parsed := ParseItem(Lex(items[k]), 0);
      ItemParts(items[k], p, i);
      if !SelectItemApproved(items[k], p, i) { ItemRefused(items, k, p, i); }
      if parsed.None? { return false; }
      var key := Upper(parsed.value.alias);
      Expected(key, p, i);
      if key !in EXPECTED_OUTPUTS { return false; }
      if key in seen {
        ItemRepeated(items, k, seen, p, i);
        return false;
      }
      if Normalize(Unlex(parsed.value.expr)) != ExpectedExpr(key, p, i).value { return false; }
      ItemRead(items, k, seen, p, i);
      seen := seen + {key};
    }
    assert items[..|items|] == items;
    ItemsDone(items, seen, p, i);
    ok := EXPECTED_OUTPUTS - seen == {};
  }

  // -------------------------------------------------------------- the whole run

  lemma {:induction false} BindsAliases(byAlias: map<string, string>, refs: seq<Match<TableRef>>)
    requires TablesApproved(refs) && Binds(byAlias, refs)
    ensures byAlias.Keys == TableAliases(refs)
    ensures BothTables(refs) <==> ALLOWED_TABLES <= byAlias.Values
  {
    forall table | table in ALLOWED_TABLES
      ensures table in byAlias.Values <==> exists r <- refs :: r.value.table == table
    {
      BoundTable(byAlias, refs, table);
    }
  }

  lemma {:induction false} BoundTable(byAlias: map<string, string>, refs: seq<Match<TableRef>>, table: string)
    requires Binds(byAlias, refs)
    ensures table in byAlias.Values <==> exists r <- refs :: r.value.table == table
  {
    if r :| r in refs && r.value.table == table {
      assert byAlias[r.value.alias.value] in byAlias.Values;
    }
    if table in byAlias.Values {
      var a :| a in byAlias && byAlias[a] == table;
      var r :| r in refs && r.value.alias == Some(a) && r.value.table == byAlias[a];
    }
  }

  /** The alias found for a table is the one the rules speak of, and the only one. */
  lemma {:induction false} AliasFound(byAlias: map<string, string>, refs: seq<Match<TableRef>>, table: string)
    requires TablesApproved(refs) && Binds(byAlias, refs) && table in byAlias.Values
    ensures AliasOf(refs, table) in byAlias
    ensures forall a <- byAlias :: byAlias[a] == table <==> a == AliasOf(refs, table)
  {
    BoundTable(byAlias, refs, table);
    var r :| r in refs && r.value.table == table;
    AliasOfBound(refs, r);
    forall a | a in byAlias && byAlias[a] == table ensures a == AliasOf(refs, table) {
      var s :| s in refs && s.value.alias == Some(a) && s.value.table == byAlias[a];
      AliasOfBound(refs, s);
    }
  }

  method CheckClauses(ts: seq<Token>, byAlias: map<string, string>, p: string, i: string) returns (ok: bool)
    requires TopAt(ts).Some?
    requires p in byAlias && forall a <- byAlias :: byAlias[a] == "PRODUCT" <==> a == p
    ensures ok <==> ClausesApproved(ts, p, i)
  {
    if !JoinApproved(ts, p, i) { return false; }
    if CountPair(ts, "GROUP", "BY") != 1 { return false; }
    var keys := CommaSplit.SplitTopLevelCommas(ClauseText(AfterPair(ts, "GROUP", "BY").GetOr([])));
    var grouped := CheckGroupKeys(keys, byAlias, p);
    if !grouped { return false; }
    if !HavingApproved(ts, p, i) { return false; }
    var items := CommaSplit.SplitTopLevelCommas(SelectList(ts));
    ok := CheckSelectItems(items, p, i);
  }

  lemma {:induction false} RequiredTables(tables: set<string>)
    requires ALLOWED_TABLES - tables == {}
    ensures "PRODUCT" in tables && "PRODUCTINVENTORY" in tables && ALLOWED_TABLES <= tables
  {
    assert "PRODUCT" in ALLOWED_TABLES && "PRODUCTINVENTORY" in ALLOWED_TABLES;
    assert forall t :: t in ALLOWED_TABLES ==> t in tables || t in ALLOWED_TABLES - tables;
  }

  /** The checks on the two required tables, once all aliases are bound. */
  method CheckTables(ts: seq<Token>, byAlias: map<string, string>) returns (ok: bool)
    requires TopAt(ts).Some?
    requires TablesApproved(Refs(ts)) && Binds(byAlias, Refs(ts))
    ensures ok <==> (BothTables(Refs(ts))
      && ClausesApproved(ts, AliasOf(Refs(ts), "PRODUCT"), AliasOf(Refs(ts), "PRODUCTINVENTORY")))
  {
    ghost var refs := Refs(ts);
    BindsAliases(byAlias, refs);
    if ALLOWED_TABLES - byAlias.Values != {} { return false; }
    RequiredTables(byAlias.Values);
    AliasFound(byAlias, refs, "PRODUCT");
    AliasFound(byAlias, refs, "PRODUCTINVENTORY");
    var p :| p in byAlias && byAlias[p] == "PRODUCT";
    var i :| i in byAlias && byAlias[i] == "PRODUCTINVENTORY";
    ok := CheckClauses(ts, byAlias, p, i);
  }

  /** Rules 8 to 11: tables, outputs and identifiers. */
  method CheckNames(ts: seq<Token>) returns (ok: bool, byAlias: map<string, string>)
    ensures
      var refs, uses := Refs(ts), AsUses(ts);
      ok <==> (TablesApproved(refs) && OutputsApproved(uses, refs)
        && IdentifiersApproved(ts, AllowedIdentifiers(TableAliases(refs), OutputAliases(uses, refs))))
    ensures ok ==> Binds(byAlias, Refs(ts))
  {
    var refs, uses := Refs(ts), AsUses(ts);
    ok, byAlias := CollectTables(refs);
    if !ok { return; }
    var named, outputs := CollectOutputs(uses, refs);
    if !named { return false, byAlias; }
    BindsAliases(byAlias, refs);
    var allowed := RESERVED_WORDS + ALLOWED_TABLES + {ALLOWED_SCHEMA} + byAlias.Keys
                   + (set o | o in outputs :: Upper(o)) + ALLOWED_SOURCE_COLUMNS;
    ok := CheckIdentifiers(ts, allowed);
  }

  method CheckScope(ts: seq<Token>) returns (ok: bool)
    requires SingleSelect(ts)
    ensures ok <==> Approved(ts)
  {
    var named, byAlias := CheckNames(ts);
    if !named { return false; }
    if CountPair(ts, "ORDER", "BY") == 0 || !HasFirstKey(ts) { return false; }
    ok := CheckTables(ts, byAlias);
  }

  lemma {:induction false} BlankRejected()
    ensures Decision("") == Rejected
    ensures !SingleSelect(Lex(""))
  {
    assert Strip("") == "";
  }

  method Validate(sql: string) returns (v: Verdict)
    ensures v == Decision(sql)
  {
    var cleaned := Strip(sql);
    if cleaned == "" {
      BlankRejected();
      return Rejected;
    }
    if cleaned[|cleaned| - 1] == ';' {
      cleaned := RStrip(cleaned[..|cleaned| - 1]);
    }
    assert cleaned == Clean(sql);
    if ';' in cleaned || '\'' in cleaned { return Rejected; }
    if HasAdjacent(cleaned, '-', '-') || HasAdjacent(cleaned, '/', '*') { return Rejected; }
    var ts := Lex(cleaned);
    if CountKw(ts, "SELECT") != 1 || !StartsWithSelect(ts) || MentionsForbidden(ts) { return Rejected; }
    var top := TopAt(ts);
    if top.None? || !(1 <= top.value.n <= MAXIMUM_RETURNED_ROWS) { return Rejected; }
    if '*' in cleaned { return Rejected; }
    var ok := CheckScope(ts);
    if !ok { return Rejected; }
    v := Accepted(cleaned);
  }
}
