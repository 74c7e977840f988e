/** Reading the inspection result back (`schema_collector.py`, `metadata_service.py`): the
    nested index agrees with the flat rows it was folded from. */
module CatalogIndex {
  import opened Sequences
  import opened Text
  import opened StableGrouping
  import opened SchemaInspection

  // ------------------------------------------------------------- looking up

  function FindTable(ts: seq<Table>, name: string): Option<Table> {
    if ts == [] then None else if ts[0].name == name then Some(ts[0]) else FindTable(ts[1..], name)
  }

  /** The first table of that name in a schema of that name. */
  function GetTable(ss: seq<Schema>, schema: string, table: string): Option<Table> {
    if ss == [] then None
    else
      var here := if ss[0].name == schema then FindTable(ss[0].tables, table) else None;
      if here.Some? then here else GetTable(ss[1..], schema, table)
  }

  lemma {:induction false} FindTableFor(ks: seq<TableKey>, schema: string, name: string,
                                        rows: seq<ColumnRow>, keys: seq<KeyRow>, notes: seq<NoteRow>)
    requires forall k <- ks :: k.schema == schema
    ensures FindTable(TablesFor(ks, rows, keys, notes), name)
         == if TableKey(schema, name) in ks then Some(TableFor(TableKey(schema, name), rows, keys, notes)) else None
  {
    if ks != [] {
      assert TablesFor(ks, rows, keys, notes)[1..] == TablesFor(ks[1..], rows, keys, notes);
      assert ks[0] in ks && forall k <- ks[1..] :: k in ks;
      FindTableFor(ks[1..], schema, name, rows, keys, notes);
      assert ks == [ks[0]] + ks[1..];
    }
  }

  lemma {:induction false} PickSchema(order: seq<TableKey>, schema: string)
    ensures forall k <- Pick(order, SchemaOf, schema) :: k.schema == schema && k in order
    ensures forall k <- order :: k.schema == schema ==> k in Pick(order, SchemaOf, schema)
  {
    forall k: TableKey ensures k in Pick(order, SchemaOf, schema) <==> k in order && k.schema == schema {
      PickMember(order, SchemaOf, schema, k);
    }
  }

  lemma {:induction false} SchemasTail(names: seq<string>, order: seq<TableKey>,
                                       rows: seq<ColumnRow>, keys: seq<KeyRow>, notes: seq<NoteRow>)
    requires names != []
    ensures
      var ss := SchemasFor(names, order, rows, keys, notes);
      && ss[0] == Schema(names[0], TablesFor(Pick(order, SchemaOf, names[0]), rows, keys, notes))
      && ss[1..] == SchemasFor(names[1..], order, rows, keys, notes)
  {
  }

  lemma {:induction false} GetTableFirst(s: Schema, ss: seq<Schema>, schema: string, name: string)
    ensures GetTable([s] + ss, schema, name)
         == if s.name == schema && FindTable(s.tables, name).Some? then FindTable(s.tables, name)
            else GetTable(ss, schema, name)
  {
    assert ([s] + ss)[1..] == ss;
  }

  lemma {:induction false} GetTableFor(names: seq<string>, order: seq<TableKey>, schema: string, name: string,
                                       rows: seq<ColumnRow>, keys: seq<KeyRow>, notes: seq<NoteRow>)
    ensures GetTable(SchemasFor(names, order, rows, keys, notes), schema, name)
         == if schema in names && TableKey(schema, name) in order
            then Some(TableFor(TableKey(schema, name), rows, keys, notes)) else None
  {
    if names != [] {
      var ss := SchemasFor(names, order, rows, keys, notes);
      SchemasTail(names, order, rows, keys, notes);
      FindInSchema(names[0], order, name, rows, keys, notes);
      GetTableFor(names[1..], order, schema, name, rows, keys, notes);
      assert ss == [ss[0]] + ss[1..];
      GetTableFirst(ss[0], ss[1..], schema, name);
      assert schema in names <==> schema == names[0] || schema in names[1..];
    }
  }

  lemma {:induction false} FindInSchema(schema: string, order: seq<TableKey>, name: string,
                                        rows: seq<ColumnRow>, keys: seq<KeyRow>, notes: seq<NoteRow>)
    ensures FindTable(TablesFor(Pick(order, SchemaOf, schema), rows, keys, notes), name)
         == if TableKey(schema, name) in order then Some(TableFor(TableKey(schema, name), rows, keys, notes)) else None
  {
    PickSchema(order, schema);
    FindTableFor(Pick(order, SchemaOf, schema), schema, name, rows, keys, notes);
  }

  /** Looking a table up in the index gives exactly what the flat rows say about it. */
  lemma {:induction false} IndexAgrees(rows: seq<ColumnRow>, keys: seq<KeyRow>, links: seq<LinkRow>, notes: seq<NoteRow>,
                                       schema: string, name: string)
    ensures
      var found := GetTable(Inspected(rows, keys, links, notes).schemas, schema, name);
      var own := Pick(rows, KeyOf, TableKey(schema, name));
      && (found.Some? <==> exists r <- rows :: r.schema == schema && r.table == name)
      && (found.Some? ==> found.value == TableFor(TableKey(schema, name), rows, keys, notes))
      && Subsequence(own, rows)
      && (forall r :: r in own <==> r in rows && r.schema == schema && r.table == name)
  {
    var order, k := TableOrder(rows), TableKey(schema, name);
    GetTableFor(Firsts(Keys(order, SchemaOf)), order, schema, name, rows, keys, notes);
    FirstsMember(Keys(order, SchemaOf), schema);
    FirstsMember(Keys(rows, KeyOf), k);
    if k in order {
      var a :| 0 <= a < |order| && order[a] == k;
      assert Keys(order, SchemaOf)[a] == schema;
      var b :| 0 <= b < |rows| && Keys(rows, KeyOf)[b] == k;
      assert rows[b] in rows;
    }
    if r :| r in rows && r.schema == schema && r.table == name {
      var b :| 0 <= b < |rows| && rows[b] == r;
      assert Keys(rows, KeyOf)[b] == k;
    }
    PickInOrder(rows, KeyOf, k);
    forall r: ColumnRow ensures r in Pick(rows, KeyOf, k) <==> r in rows && r.schema == schema && r.table == name {
      PickMember(rows, KeyOf, k, r);
    }
  }

  /** Ordinals count the columns from 1 without gaps, whatever the column ids are. */
  lemma {:induction false} Ordinals(k: TableKey, rows: seq<ColumnRow>, keys: seq<KeyRow>, notes: seq<NoteRow>)
    ensures
      var t, own := TableFor(k, rows, keys, notes), Pick(rows, KeyOf, k);
      && |t.columns| == |own|
      && forall i :: 0 <= i < |own| ==>
           && t.columns[i].ordinal == i + 1
           && t.columns[i].name == own[i].column
           && t.columns[i].description == ColumnNote(notes, k, own[i].columnId)
  {
    forall r | r in Pick(rows, KeyOf, k) ensures KeyOf(r) == k { PickMember(rows, KeyOf, k, r); }
    var own := Pick(rows, KeyOf, k);
    forall i | 0 <= i < |own| ensures KeyOf(own[i]) == k { assert own[i] in own; }
  }

  // -------------------------------------------------------------- flattening

  datatype Flat = Flat(schema: string, table: string, column: string, dataType: string, nullable: bool)

  function FlatOf(r: ColumnRow): Flat { Flat(r.schema, r.table, r.column, r.dataType, r.nullable) }

  function FlatRows(rows: seq<ColumnRow>): (fs: seq<Flat>)
    ensures |fs| == |rows| && forall i :: 0 <= i < |rows| ==> fs[i] == FlatOf(rows[i])
  {
    seq(|rows|, i requires 0 <= i < |rows| => FlatOf(rows[i]))
  }

  function FlatTable(schema: string, t: Table): (fs: seq<Flat>)
    ensures |fs| == |t.columns|
    ensures forall i :: 0 <= i < |fs| ==>
      fs[i] == Flat(schema, t.name, t.columns[i].name, t.columns[i].dataType, t.columns[i].nullable)
  {
    seq(|t.columns|, i requires 0 <= i < |t.columns| =>
      Flat(schema, t.name, t.columns[i].name, t.columns[i].dataType, t.columns[i].nullable))
  }

  function FlatTables(schema: string, ts: seq<Table>): seq<Flat> {
    if ts == [] then [] else FlatTables(schema, ts[..|ts| - 1]) + FlatTable(schema, ts[|ts| - 1])
  }

  /** The columns of all tables of all schemas, in the order of the result. */
  function Flatten(ss: seq<Schema>): seq<Flat> {
    if ss == [] then [] else Flatten(ss[..|ss| - 1]) + FlatTables(ss[|ss| - 1].name, ss[|ss| - 1].tables)
  }

  lemma {:induction false} FlatRowsConcat(a: seq<ColumnRow>, b: seq<ColumnRow>)
    ensures FlatRows(a + b) == FlatRows(a) + FlatRows(b)
  {
  }

  lemma {:induction false} FlatTableFor(k: TableKey, rows: seq<ColumnRow>, keys: seq<KeyRow>, notes: seq<NoteRow>)
    ensures FlatTable(k.schema, TableFor(k, rows, keys, notes)) == FlatRows(Pick(rows, KeyOf, k))
  {
    var own := Pick(rows, KeyOf, k);
    forall i | 0 <= i < |own| ensures KeyOf(own[i]) == k { PickMember(rows, KeyOf, k, own[i]); }
  }

  lemma {:induction false} FlatTablesFor(ks: seq<TableKey>, schema: string,
                                         rows: seq<ColumnRow>, keys: seq<KeyRow>, notes: seq<NoteRow>)
    requires forall k <- ks :: k.schema == schema
    ensures FlatTables(schema, TablesFor(ks, rows, keys, notes)) == FlatRows(Gather(rows, KeyOf, ks))
  {
    if ks != [] {
      var n := |ks| - 1;
      assert TablesFor(ks, rows, keys, notes)[..n] == TablesFor(ks[..n], rows, keys, notes);
      assert ks[n] in ks && forall k <- ks[..n] :: k in ks;
      FlatTablesFor(ks[..n], schema, rows, keys, notes);
      FlatTableFor(ks[n], rows, keys, notes);
      FlatRowsConcat(Gather(rows, KeyOf, ks[..n]), Pick(rows, KeyOf, ks[n]));
    }
  }

  lemma {:induction false} GatherConcat(rows: seq<ColumnRow>, a: seq<TableKey>, b: seq<TableKey>)
    ensures Gather(rows, KeyOf, a + b) == Gather(rows, KeyOf, a) + Gather(rows, KeyOf, b)
    decreases |b|
  {
    if b == [] {
      assert a + b == a;
    } else {
      var n := |b| - 1;
      GatherConcat(rows, a, b[..n]);
      assert (a + b)[..|a + b| - 1] == a + b[..n];
      Assoc(Gather(rows, KeyOf, a), Gather(rows, KeyOf, b[..n]), Pick(rows, KeyOf, b[n]));
    }
  }

  lemma {:induction false} FlatSchemasFor(names: seq<string>, order: seq<TableKey>,
                                          rows: seq<ColumnRow>, keys: seq<KeyRow>, notes: seq<NoteRow>)
    ensures Flatten(SchemasFor(names, order, rows, keys, notes))
         == FlatRows(Gather(rows, KeyOf, Gather(order, SchemaOf, names)))
  {
    if names != [] {
      var n := |names| - 1;
      var own := Pick(order, SchemaOf, names[n]);
      assert SchemasFor(names, order, rows, keys, notes)[..n] == SchemasFor(names[..n], order, rows, keys, notes);
      FlatSchemasFor(names[..n], order, rows, keys, notes);
      PickSchema(order, names[n]);
      FlatTablesFor(own, names[n], rows, keys, notes);
      GatherConcat(rows, Gather(order, SchemaOf, names[..n]), own);
      FlatRowsConcat(Gather(rows, KeyOf, Gather(order, SchemaOf, names[..n])), Gather(rows, KeyOf, own));
    }
  }

  /** Keys in order of first appearance stand where they first appeared. */
  lemma {:induction false} FirstsPlaces<K>(ks: seq<K>) returns (at: seq<nat>)
    ensures |at| == |Firsts(ks)|
    ensures forall i :: 0 <= i < |at| ==> at[i] < |ks| && ks[at[i]] == Firsts(ks)[i]
    ensures forall i, j :: 0 <= i < j < |at| ==> at[i] < at[j]
  {
    if ks == [] {
      at := [];
    } else {
      var n := |ks| - 1;
      at := FirstsPlaces(ks[..n]);
      if ks[n] !in Firsts(ks[..n]) { at := at + [n]; }
    }
  }

  function RowSchema(r: ColumnRow): string { r.schema }

  lemma {:induction false} OrderContiguous(rows: seq<ColumnRow>)
    requires Contiguous(Keys(rows, RowSchema))
    ensures Contiguous(Keys(TableOrder(rows), SchemaOf))
  {
    var order := TableOrder(rows);
    var at := FirstsPlaces(Keys(rows, KeyOf));
    var ss, all := Keys(order, SchemaOf), Keys(rows, RowSchema);
    forall i | 0 <= i < |order| ensures ss[i] == all[at[i]] {
      assert Keys(rows, KeyOf)[at[i]] == KeyOf(rows[at[i]]);
    }
    forall a, b, c | 0 <= a < b < c < |ss| && ss[a] == ss[c] ensures ss[b] == ss[a] {
      assert at[a] < at[b] < at[c];
    }
  }

  /** Flattening the nested result gives the input back when it came grouped by schema and table. */
  lemma {:induction false} FlattenRoundTrip(rows: seq<ColumnRow>, keys: seq<KeyRow>, links: seq<LinkRow>, notes: seq<NoteRow>)
    requires Contiguous(Keys(rows, RowSchema)) && Contiguous(Keys(rows, KeyOf))
    ensures Flatten(Inspected(rows, keys, links, notes).schemas) == FlatRows(rows)
  {
    var order := TableOrder(rows);
    FlatSchemasFor(Firsts(Keys(order, SchemaOf)), order, rows, keys, notes);
    OrderContiguous(rows);
    GatherContiguous(order, SchemaOf);
    GatherContiguous(rows, KeyOf);
  }

  // ------------------------------------------------------------------- counts

  lemma {:induction false} CountTablesFor(names: seq<string>, order: seq<TableKey>,
                                          rows: seq<ColumnRow>, keys: seq<KeyRow>, notes: seq<NoteRow>)
    ensures CountTables(SchemasFor(names, order, rows, keys, notes)) == |Gather(order, SchemaOf, names)|
  {
    if names != [] {
      var n := |names| - 1;
      assert SchemasFor(names, order, rows, keys, notes)[..n] == SchemasFor(names[..n], order, rows, keys, notes);
      CountTablesFor(names[..n], order, rows, keys, notes);
    }
  }

  lemma {:induction false} DistinctCount<K>(ks: seq<K>)
    ensures |Firsts(ks)| == |set k | k in ks|
  {
    var all := set k | k in ks;
    if ks == [] {
      assert all == {};
    } else {
      var n := |ks| - 1;
      var before := set k | k in ks[..n];
      DistinctCount(ks[..n]);
      FirstsMember(ks[..n], ks[n]);
      assert ks == ks[..n] + [ks[n]];
      assert all == before + {ks[n]};
    }
  }

  /** The summary counts the distinct schemas and the distinct tables. */
  lemma {:induction false} SummaryCounts(rows: seq<ColumnRow>, keys: seq<KeyRow>, links: seq<LinkRow>, notes: seq<NoteRow>)
    ensures
      var r := Inspected(rows, keys, links, notes);
      && r.schemaCount == |set s | s in Keys(rows, RowSchema)|
      && r.tableCount == |set k | k in Keys(rows, KeyOf)|
  {
    var order := TableOrder(rows);
    var names := Keys(order, SchemaOf);
    CountTablesFor(Firsts(names), order, rows, keys, notes);
    GatherKeeps(order, SchemaOf);
    assert |multiset(Gather(order, SchemaOf, Firsts(names)))| == |multiset(order)|;
    DistinctCount(Keys(rows, KeyOf));
    DistinctCount(names);
    SchemaNames(rows);
  }

  lemma {:induction false} SchemaNames(rows: seq<ColumnRow>)
    ensures (set s | s in Keys(TableOrder(rows), SchemaOf)) == (set s | s in Keys(rows, RowSchema))
  {
    var order := TableOrder(rows);
    forall s ensures s in Keys(order, SchemaOf) <==> s in Keys(rows, RowSchema) {
      if s in Keys(order, SchemaOf) {
        var a :| 0 <= a < |order| && order[a].schema == s;
        FirstsMember(Keys(rows, KeyOf), order[a]);
        var b :| 0 <= b < |rows| && Keys(rows, KeyOf)[b] == order[a];
        assert Keys(rows, RowSchema)[b] == s;
      }
      if s in Keys(rows, RowSchema) {
        var b :| 0 <= b < |rows| && rows[b].schema == s;
        assert Keys(rows, KeyOf)[b] == KeyOf(rows[b]);
        FirstsMember(Keys(rows, KeyOf), KeyOf(rows[b]));
        var a :| 0 <= a < |order| && order[a] == KeyOf(rows[b]);
        assert Keys(order, SchemaOf)[a] == s;
      }
    }
  }

  // ------------------------------------------------------------ start-up check

  datatype Mapping = Mapped | NoTable(name: string) | NoColumns(name: string) | NoLink

  const PRODUCT_NEEDS := ["ProductID", "Name", "SafetyStockLevel"]
  const INVENTORY_NEEDS := ["ProductID", "Quantity"]

  predicate HasColumns(t: Table, needed: seq<string>) {
    forall c <- needed :: exists x <- t.columns :: x.name == c
  }

  predicate RequiredLink(f: ForeignKey) {
    f == ForeignKey(f.name, "Production", "ProductInventory", ["ProductID"], "Production", "Product", ["ProductID"])
  }

  /** `validate_physical_mapping`: what the start-up check reports. */
  function CheckMapping(ss: seq<Schema>, fs: seq<ForeignKey>): Mapping {
    var product := GetTable(ss, "Production", "Product");
    var inventory := GetTable(ss, "Production", "ProductInventory");
    if product.None? then NoTable("Product")
    else if !HasColumns(product.value, PRODUCT_NEEDS) then NoColumns("Product")
    else if inventory.None? then NoTable("ProductInventory")
    else if !HasColumns(inventory.value, INVENTORY_NEEDS) then NoColumns("ProductInventory")
    else if exists f <- fs :: RequiredLink(f) then Mapped
    else NoLink
  }

  /** The flat rows give the table this column. */
  predicate Offers(rows: seq<ColumnRow>, table: string, column: string) {
    exists r <- rows :: r.schema == "Production" && r.table == table && r.column == column
  }

  predicate RequiredRow(r: LinkRow) {
    r == LinkRow(r.objectId, r.name, "Production", "ProductInventory", "ProductID", "Production", "Product", "ProductID")
  }

  /** Some foreign key has exactly one row, and it is the required link. */
  predicate LinkOffered(links: seq<LinkRow>) {
    exists r <- links :: RequiredRow(r) && Pick(links, IdOf, r.objectId) == [r]
  }

  lemma {:induction false} ColumnOffered(rows: seq<ColumnRow>, keys: seq<KeyRow>, notes: seq<NoteRow>, table: string, column: string)
    ensures (exists x <- TableFor(TableKey("Production", table), rows, keys, notes).columns :: x.name == column)
       <==> Offers(rows, table, column)
  {
    var k := TableKey("Production", table);
    var t, own := TableFor(k, rows, keys, notes), Pick(rows, KeyOf, k);
    if x :| x in t.columns && x.name == column {
      var i :| 0 <= i < |t.columns| && t.columns[i] == x;
      PickMember(rows, KeyOf, k, own[i]);
      assert own[i] in rows && own[i].column == column;
    }
    if r :| r in rows && r.schema == "Production" && r.table == table && r.column == column {
      PickMember(rows, KeyOf, k, r);
      var i :| 0 <= i < |own| && own[i] == r;
      assert t.columns[i] in t.columns;
    }
  }

  lemma {:induction false} TableOffered(rows: seq<ColumnRow>, keys: seq<KeyRow>, links: seq<LinkRow>, notes: seq<NoteRow>,
                                        table: string, needed: seq<string>)
    requires needed != []
    ensures
      var t := GetTable(Inspected(rows, keys, links, notes).schemas, "Production", table);
      t.Some? && HasColumns(t.value, needed) <==> forall c <- needed :: Offers(rows, table, c)
  {
    IndexAgrees(rows, keys, links, notes, "Production", table);
    forall c | c in needed
      ensures (exists x <- TableFor(TableKey("Production", table), rows, keys, notes).columns :: x.name == c)
         <==> Offers(rows, table, c)
    {
      ColumnOffered(rows, keys, notes, table, c);
    }
    if forall c <- needed :: Offers(rows, table, c) {
      assert needed[0] in needed && Offers(rows, table, needed[0]);
    }
  }

  lemma {:induction false} OneRowLink(own: seq<LinkRow>)
    requires own != []
    ensures RequiredLink(LinkFrom(own)) <==> |own| == 1 && RequiredRow(own[0])
  {
    assert |["ProductID"]| == 1;
    if |own| == 1 {
      assert SourceColumns(own) == [own[0].sourceColumn] && TargetColumns(own) == [own[0].targetColumn];
      assert SourceColumns(own)[0] == own[0].sourceColumn && TargetColumns(own)[0] == own[0].targetColumn;
    }
  }

  lemma {:induction false} LinkFound(links: seq<LinkRow>)
    ensures (exists f <- LinksFor(Firsts(Keys(links, IdOf)), links) :: RequiredLink(f)) <==> LinkOffered(links)
  {
    var ids := Firsts(Keys(links, IdOf));
    var fs := LinksFor(ids, links);
    if f :| f in fs && RequiredLink(f) {
      var n :| 0 <= n < |fs| && fs[n] == f;
      var own := Pick(links, IdOf, ids[n]);
      OneRowLink(own);
      PickMember(links, IdOf, ids[n], own[0]);
      assert own == [own[0]];
    }
    if r :| r in links && RequiredRow(r) && Pick(links, IdOf, r.objectId) == [r] {
      var b :| 0 <= b < |links| && links[b] == r;
      assert Keys(links, IdOf)[b] == r.objectId;
      FirstsMember(Keys(links, IdOf), r.objectId);
      var n :| 0 <= n < |ids| && ids[n] == r.objectId;
      OneRowLink([r]);
      assert fs[n] in fs;
    }
  }

  /** The start-up check on the catalog passes exactly when the flat rows hold every required
      column and a one-row foreign key that is the required link. */
  lemma {:induction false} MappingAgrees(rows: seq<ColumnRow>, keys: seq<KeyRow>, links: seq<LinkRow>, notes: seq<NoteRow>)
    ensures
      var r := Inspected(rows, keys, links, notes);
      CheckMapping(r.schemas, r.foreignKeys).Mapped?
      <==> && (forall c <- PRODUCT_NEEDS :: Offers(rows, "Product", c))
           && (forall c <- INVENTORY_NEEDS :: Offers(rows, "ProductInventory", c))
           && LinkOffered(links)
  {
    TableOffered(rows, keys, links, notes, "Product", PRODUCT_NEEDS);
    TableOffered(rows, keys, links, notes, "ProductInventory", INVENTORY_NEEDS);
    LinkFound(links);
  }
}
