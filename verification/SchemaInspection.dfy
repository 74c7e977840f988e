/** Schema inspection (`inspect_schema.py`): four flat row sets folded into nested schemas,
    tables, columns and foreign keys, and the index read back by the backend. */
module SchemaInspection {
  import opened Text
  import opened StableGrouping

  datatype TableKey = TableKey(schema: string, table: string)

  /** A row of the columns query; the formatted data type stands for the type columns. */
  datatype ColumnRow = ColumnRow(
    schema: string, table: string, columnId: int, column: string, dataType: string, nullable: bool)

  datatype KeyRow = KeyRow(schema: string, table: string, column: string)

  datatype LinkRow = LinkRow(
    objectId: int, name: string,
    sourceSchema: string, sourceTable: string, sourceColumn: string,
    targetSchema: string, targetTable: string, targetColumn: string)

  datatype NoteRow = NoteRow(schema: string, table: string, minorId: int, text: string)

  datatype Column = Column(
    name: string, dataType: string, nullable: bool, ordinal: nat, description: Option<string>)

  datatype Table = Table(
    name: string, description: Option<string>, columns: seq<Column>, primaryKey: Option<seq<string>>)

  datatype Schema = Schema(name: string, tables: seq<Table>)

  datatype ForeignKey = ForeignKey(
    name: string,
    sourceSchema: string, sourceTable: string, sourceColumns: seq<string>,
    targetSchema: string, targetTable: string, targetColumns: seq<string>)

  datatype Inspection = Inspection(
    schemas: seq<Schema>, foreignKeys: seq<ForeignKey>, schemaCount: nat, tableCount: nat)

  // ---------------------------------------------------------- what the fold means

  function KeyOf(r: ColumnRow): TableKey { TableKey(r.schema, r.table) }

  function PkKeyOf(r: KeyRow): TableKey { TableKey(r.schema, r.table) }

  function SchemaOf(k: TableKey): string { k.schema }

  function IdOf(r: LinkRow): int { r.objectId }

  /** The last description given for a table (`id` 0) or a column. */
  function LastNote(notes: seq<NoteRow>, key: TableKey, id: int): Option<string> {
    if notes == [] then None
    else
      var n := |notes| - 1;
      if notes[n].schema == key.schema && notes[n].table == key.table && notes[n].minorId == id
      then Some(notes[n].text) else LastNote(notes[..n], key, id)
  }

  /** A column description never comes from the table's own entry. */
  function ColumnNote(notes: seq<NoteRow>, key: TableKey, columnId: int): Option<string> {
    if columnId == 0 then None else LastNote(notes, key, columnId)
  }

  function ColumnFrom(r: ColumnRow, ordinal: nat, notes: seq<NoteRow>): Column {
    Column(r.column, r.dataType, r.nullable, ordinal, ColumnNote(notes, KeyOf(r), r.columnId))
  }

  /** The columns of one table's rows, numbered from 1. */
  function ColumnsFrom(rows: seq<ColumnRow>, notes: seq<NoteRow>): (cs: seq<Column>)
    ensures |cs| == |rows| && forall i :: 0 <= i < |rows| ==> cs[i] == ColumnFrom(rows[i], i + 1, notes)
  {
    seq(|rows|, i requires 0 <= i < |rows| => ColumnFrom(rows[i], i + 1, notes))
  }

  function NamesOf(rows: seq<KeyRow>): (ns: seq<string>)
    ensures |ns| == |rows| && forall i :: 0 <= i < |rows| ==> ns[i] == rows[i].column
  {
    seq(|rows|, i requires 0 <= i < |rows| => rows[i].column)
  }

  function TableFor(k: TableKey, rows: seq<ColumnRow>, keys: seq<KeyRow>, notes: seq<NoteRow>): Table {
    var own := Pick(keys, PkKeyOf, k);
    Table(k.table, LastNote(notes, k, 0), ColumnsFrom(Pick(rows, KeyOf, k), notes),
          if own == [] then None else Some(NamesOf(own)))
  }

  function TablesFor(ks: seq<TableKey>, rows: seq<ColumnRow>, keys: seq<KeyRow>, notes: seq<NoteRow>): (ts: seq<Table>)
    ensures |ts| == |ks| && forall i :: 0 <= i < |ks| ==> ts[i] == TableFor(ks[i], rows, keys, notes)
  {
    seq(|ks|, i requires 0 <= i < |ks| => TableFor(ks[i], rows, keys, notes))
  }

  /** The tables, in order of first appearance. */
  function TableOrder(rows: seq<ColumnRow>): seq<TableKey> { Firsts(Keys(rows, KeyOf)) }

  function SchemasFor(names: seq<string>, order: seq<TableKey>, rows: seq<ColumnRow>, keys: seq<KeyRow>,
                      notes: seq<NoteRow>): (ss: seq<Schema>)
    ensures |ss| == |names|
    ensures forall i :: 0 <= i < |names| ==>
      ss[i] == Schema(names[i], TablesFor(Pick(order, SchemaOf, names[i]), rows, keys, notes))
  {
    seq(|names|, i requires 0 <= i < |names| =>
      Schema(names[i], TablesFor(Pick(order, SchemaOf, names[i]), rows, keys, notes)))
  }

  function SourceColumns(rows: seq<LinkRow>): (cs: seq<string>)
    ensures |cs| == |rows| && forall i :: 0 <= i < |rows| ==> cs[i] == rows[i].sourceColumn
  {
    seq(|rows|, i requires 0 <= i < |rows| => rows[i].sourceColumn)
  }

  function TargetColumns(rows: seq<LinkRow>): (cs: seq<string>)
    ensures |cs| == |rows| && forall i :: 0 <= i < |rows| ==> cs[i] == rows[i].targetColumn
  {
    seq(|rows|, i requires 0 <= i < |rows| => rows[i].targetColumn)
  }

  /** A foreign key takes its name and tables from its first row. */
  function LinkFrom(rows: seq<LinkRow>): ForeignKey {
    if rows == [] then ForeignKey("", "", "", [], "", "", [])
    else
      ForeignKey(rows[0].name, rows[0].sourceSchema, rows[0].sourceTable, SourceColumns(rows),
                 rows[0].targetSchema, rows[0].targetTable, TargetColumns(rows))
  }

  function LinksFor(ids: seq<int>, rows: seq<LinkRow>): (fs: seq<ForeignKey>)
    ensures |fs| == |ids| && forall i :: 0 <= i < |ids| ==> fs[i] == LinkFrom(Pick(rows, IdOf, ids[i]))
  {
    seq(|ids|, i requires 0 <= i < |ids| => LinkFrom(Pick(rows, IdOf, ids[i])))
  }

  function CountTables(ss: seq<Schema>): nat {
    if ss == [] then 0 else CountTables(ss[..|ss| - 1]) + |ss[|ss| - 1].tables|
  }

  function Inspected(rows: seq<ColumnRow>, keys: seq<KeyRow>, links: seq<LinkRow>, notes: seq<NoteRow>): Inspection {
    var order := TableOrder(rows);
    var schemas := SchemasFor(Firsts(Keys(order, SchemaOf)), order, rows, keys, notes);
    Inspection(schemas, LinksFor(Firsts(Keys(links, IdOf)), links), |schemas|, CountTables(schemas))
  }

  // ------------------------------------------------------------------- the fold

  ghost predicate NotesRead(tableNotes: map<TableKey, string>, columnNotes: map<(TableKey, int), string>, notes: seq<NoteRow>) {
    && (forall k :: k in tableNotes <==> LastNote(notes, k, 0).Some?)
    && (forall k :: k in tableNotes ==> LastNote(notes, k, 0) == Some(tableNotes[k]))
    && (forall k, i :: (k, i) in columnNotes <==> i != 0 && LastNote(notes, k, i).Some?)
    && (forall k, i :: (k, i) in columnNotes ==> LastNote(notes, k, i) == Some(columnNotes[(k, i)]))
  }

  lemma {:induction false} NoteMore(notes: seq<NoteRow>, r: NoteRow, k: TableKey, i: int)
    ensures LastNote(notes + [r], k, i)
         == if r.schema == k.schema && r.table == k.table && r.minorId == i then Some(r.text) else LastNote(notes, k, i)
  {
    assert (notes + [r])[..|notes|] == notes;
  }

  method CollectNotes(notes: seq<NoteRow>)
    returns (tableNotes: map<TableKey, string>, columnNotes: map<(TableKey, int), string>)
    ensures NotesRead(tableNotes, columnNotes, notes)
  {
    tableNotes, columnNotes := map[], map[];
    for n := 0 to |notes|
      invariant NotesRead(tableNotes, columnNotes, notes[..n])
    {
      var r := notes[n];
      var key := TableKey(r.schema, r.table);
      assert notes[..n + 1] == notes[..n] + [r];
      forall k, i ensures LastNote(notes[..n + 1], k, i)
          == if k == key && r.minorId == i then Some(r.text) else LastNote(notes[..n], k, i) {
        NoteMore(notes[..n], r, k, i);
      }
      if r.minorId == 0 {
        tableNotes := tableNotes[key := r.text];
      } else {
        columnNotes := columnNotes[(key, r.minorId) := r.text];
      }
    }
    assert notes[..|notes|] == notes;
  }

  function Lookup<K(==), V>(m: map<K, V>, k: K): Option<V> { if k in m then Some(m[k]) else None }

  /** A table as the column rows alone describe it. */
  function Bare(k: TableKey, rows: seq<ColumnRow>, notes: seq<NoteRow>): Table {
    Table(k.table, LastNote(notes, k, 0), ColumnsFrom(Pick(rows, KeyOf, k), notes), None)
  }

  /** The dictionary of tables and its order list, after some rows. */
  ghost predicate TablesRead(tables: map<TableKey, Table>, order: seq<TableKey>, rows: seq<ColumnRow>, notes: seq<NoteRow>) {
    && order == TableOrder(rows)
    && (forall k :: k in tables <==> k in order)
    && (forall k :: k in tables ==> tables[k] == Bare(k, rows, notes))
  }

  lemma {:induction false} ColumnsMore(rows: seq<ColumnRow>, r: ColumnRow, notes: seq<NoteRow>)
    ensures ColumnsFrom(rows + [r], notes) == ColumnsFrom(rows, notes) + [ColumnFrom(r, |rows| + 1, notes)]
  {
  }

  function Extended(t: Table, r: ColumnRow, notes: seq<NoteRow>): Table {
    t.(columns := t.columns + [ColumnFrom(r, |t.columns| + 1, notes)])
  }

  lemma {:induction false} BareMore(k: TableKey, rows: seq<ColumnRow>, r: ColumnRow, notes: seq<NoteRow>)
    ensures Bare(k, rows + [r], notes)
         == if k == KeyOf(r) then Extended(Bare(k, rows, notes), r, notes) else Bare(k, rows, notes)
  {
    PickMore(rows, KeyOf, r, k);
    ColumnsMore(Pick(rows, KeyOf, k), r, notes);
    assert Pick(rows, KeyOf, k) + [] == Pick(rows, KeyOf, k);
  }

  lemma {:induction false} OrderMore(rows: seq<ColumnRow>, r: ColumnRow)
    ensures TableOrder(rows + [r])
         == if KeyOf(r) in TableOrder(rows) then TableOrder(rows) else TableOrder(rows) + [KeyOf(r)]
  {
    KeysMore(rows, KeyOf, r);
  }

  lemma {:induction false} BareNew(rows: seq<ColumnRow>, k: TableKey, notes: seq<NoteRow>)
    requires k !in TableOrder(rows)
    ensures Bare(k, rows, notes) == Table(k.table, LastNote(notes, k, 0), [], None)
  {
    FirstsMember(Keys(rows, KeyOf), k);
    PickNone(rows, KeyOf, k);
  }

  lemma {:induction false} TableReadMore(tables: map<TableKey, Table>, order: seq<TableKey>, rows: seq<ColumnRow>,
                                         notes: seq<NoteRow>, r: ColumnRow)
    requires TablesRead(tables, order, rows, notes)
    ensures TablesRead(tables[KeyOf(r) := Extended(Bare(KeyOf(r), rows, notes), r, notes)],
                       if KeyOf(r) in tables then order else order + [KeyOf(r)], rows + [r], notes)
  {
    var more := tables[KeyOf(r) := Extended(Bare(KeyOf(r), rows, notes), r, notes)];
    OrderMore(rows, r);
    forall k | k in more ensures more[k] == Bare(k, rows + [r], notes) { BareMore(k, rows, r, notes); }
  }

  /** Opens the table at its first row and appends the column. */
  method AddRow(tables: map<TableKey, Table>, order: seq<TableKey>, r: ColumnRow,
                tableNotes: map<TableKey, string>, columnNotes: map<(TableKey, int), string>,
                ghost bare: Table, ghost notes: seq<NoteRow>)
    returns (tables': map<TableKey, Table>, order': seq<TableKey>)
    requires NotesRead(tableNotes, columnNotes, notes)
    requires bare == if KeyOf(r) in tables then tables[KeyOf(r)] else Table(r.table, LastNote(notes, KeyOf(r), 0), [], None)
    ensures tables' == tables[KeyOf(r) := Extended(bare, r, notes)]
    ensures order' == if KeyOf(r) in tables then order else order + [KeyOf(r)]
  {
    var key := TableKey(r.schema, r.table);
    tables', order' := tables, order;
    if key !in tables' {
      tables' := tables'[key := Table(r.table, Lookup(tableNotes, key), [], None)];
      order' := order' + [key];
    }
    var ordinal := |tables'[key].columns| + 1;
    var column := Column(r.column, r.dataType, r.nullable, ordinal, Lookup(columnNotes, (key, r.columnId)));
    tables' := tables'[key := tables'[key].(columns := tables'[key].columns + [column])];
  }

  /** The loop body. */
  method ReadRow(tables: map<TableKey, Table>, order: seq<TableKey>, r: ColumnRow,
                 tableNotes: map<TableKey, string>, columnNotes: map<(TableKey, int), string>,
                 ghost rows: seq<ColumnRow>, ghost notes: seq<NoteRow>)
    returns (tables': map<TableKey, Table>, order': seq<TableKey>)
    requires NotesRead(tableNotes, columnNotes, notes) && TablesRead(tables, order, rows, notes)
    ensures TablesRead(tables', order', rows + [r], notes)
  {
    TableReadMore(tables, order, rows, notes, r);
    if KeyOf(r) !in tables { BareNew(rows, KeyOf(r), notes); }
    tables', order' := AddRow(tables, order, r, tableNotes, columnNotes, Bare(KeyOf(r), rows, notes), notes);
  }

  method CollectTables(rows: seq<ColumnRow>, notes: seq<NoteRow>)
    returns (tables: map<TableKey, Table>, order: seq<TableKey>)
    ensures TablesRead(tables, order, rows, notes)
  {
    var tableNotes, columnNotes := CollectNotes(notes);
    tables, order := map[], [];
    assert TableOrder([]) == [];
    for n := 0 to |rows|
      invariant TablesRead(tables, order, rows[..n], notes)
    {
      tables, order := ReadRow(tables, order, rows[n], tableNotes, columnNotes, rows[..n], notes);
      assert rows[..n + 1] == rows[..n] + [rows[n]];
    }
    assert rows[..|rows|] == rows;
  }

  // --------------------------------------------------------------- primary keys

  ghost predicate PrimaryRead(primary: map<TableKey, seq<string>>, keys: seq<KeyRow>) {
    forall k :: if k in primary then primary[k] == NamesOf(Pick(keys, PkKeyOf, k)) && Pick(keys, PkKeyOf, k) != []
                else Pick(keys, PkKeyOf, k) == []
  }

  lemma {:induction false} PrimaryMore(primary: map<TableKey, seq<string>>, keys: seq<KeyRow>, r: KeyRow)
    requires PrimaryRead(primary, keys)
    ensures PrimaryRead(primary[PkKeyOf(r) := Lookup(primary, PkKeyOf(r)).GetOr([]) + [r.column]], keys + [r])
  {
    var key := PkKeyOf(r);
    var more := primary[key := Lookup(primary, key).GetOr([]) + [r.column]];
    forall k: TableKey
      ensures if k in more then more[k] == NamesOf(Pick(keys + [r], PkKeyOf, k)) && Pick(keys + [r], PkKeyOf, k) != []
              else Pick(keys + [r], PkKeyOf, k) == []
    {
      PickMore(keys, PkKeyOf, r, k);
      var own := Pick(keys, PkKeyOf, k);
      assert own + [] == own;
      assert NamesOf(own + [r]) == NamesOf(own) + [r.column];
    }
  }

  method CollectKeys(keys: seq<KeyRow>) returns (primary: map<TableKey, seq<string>>)
    ensures PrimaryRead(primary, keys)
  {
    primary := map[];
    for n := 0 to |keys|
      invariant PrimaryRead(primary, keys[..n])
    {
      PrimaryMore(primary, keys[..n], keys[n]);
      assert keys[..n + 1] == keys[..n] + [keys[n]];
      var key := TableKey(keys[n].schema, keys[n].table);
      primary := primary[key := Lookup(primary, key).GetOr([]) + [keys[n].column]];
    }
    assert keys[..|keys|] == keys;
  }

  /** The tables with their primary keys. */
  ghost predicate TablesComplete(tables: map<TableKey, Table>, order: seq<TableKey>, rows: seq<ColumnRow>,
                                 keys: seq<KeyRow>, notes: seq<NoteRow>) {
    && order == TableOrder(rows)
    && (forall k :: k in tables <==> k in order)
    && (forall k :: k in tables ==> tables[k] == TableFor(k, rows, keys, notes))
  }

  method AttachKeys(bare: map<TableKey, Table>, order: seq<TableKey>, primary: map<TableKey, seq<string>>,
                    ghost rows: seq<ColumnRow>, ghost keys: seq<KeyRow>, ghost notes: seq<NoteRow>)
    returns (tables: map<TableKey, Table>)
    requires TablesRead(bare, order, rows, notes) && PrimaryRead(primary, keys)
    ensures TablesComplete(tables, order, rows, keys, notes)
  {
    tables := bare;
    var todo := primary.Keys;
    while todo != {}
      invariant todo <= primary.Keys && tables.Keys == bare.Keys
      invariant forall k :: k in tables ==>
        tables[k] == if k in primary && k !in todo then TableFor(k, rows, keys, notes) else Bare(k, rows, notes)
      decreases todo
    {
      var k :| k in todo;
      if k in tables {
        tables := tables[k := tables[k].(primaryKey := Some(primary[k]))];
      }
      todo := todo - {k};
    }
  }

  // -------------------------------------------------------------------- schemas

  /** The dictionary of schemas and its order list, after some tables. */
  ghost predicate SchemasRead(schemas: map<string, seq<Table>>, names: seq<string>, done: seq<TableKey>,
                              rows: seq<ColumnRow>, keys: seq<KeyRow>, notes: seq<NoteRow>) {
    && names == Firsts(Keys(done, SchemaOf))
    && (forall s :: s in schemas <==> s in names)
    && (forall s :: s in schemas ==> schemas[s] == TablesFor(Pick(done, SchemaOf, s), rows, keys, notes))
  }

  lemma {:induction false} SchemasMore(schemas: map<string, seq<Table>>, names: seq<string>, done: seq<TableKey>,
                                       rows: seq<ColumnRow>, keys: seq<KeyRow>, notes: seq<NoteRow>, k: TableKey)
    requires SchemasRead(schemas, names, done, rows, keys, notes)
    ensures SchemasRead(schemas[k.schema := Lookup(schemas, k.schema).GetOr([]) + [TableFor(k, rows, keys, notes)]],
                        if k.schema in schemas then names else names + [k.schema], done + [k], rows, keys, notes)
  {
    var more := schemas[k.schema := Lookup(schemas, k.schema).GetOr([]) + [TableFor(k, rows, keys, notes)]];
    KeysMore(done, SchemaOf, k);
    forall s | s in more ensures more[s] == TablesFor(Pick(done + [k], SchemaOf, s), rows, keys, notes) {
      PickMore(done, SchemaOf, k, s);
      var own := Pick(done, SchemaOf, s);
      assert own + [] == own;
      assert TablesFor(own + [k], rows, keys, notes) == TablesFor(own, rows, keys, notes) + [TableFor(k, rows, keys, notes)];
      if s !in schemas {
        FirstsMember(Keys(done, SchemaOf), s);
        PickNone(done, SchemaOf, s);
      }
    }
  }

  /** The loop body: opens the schema at its first table and appends the table. */
  method AddTable(schemas: map<string, seq<Table>>, names: seq<string>, k: TableKey, t: Table, ghost done: seq<TableKey>,
                  ghost rows: seq<ColumnRow>, ghost keys: seq<KeyRow>, ghost notes: seq<NoteRow>)
    returns (schemas': map<string, seq<Table>>, names': seq<string>)
    requires SchemasRead(schemas, names, done, rows, keys, notes) && t == TableFor(k, rows, keys, notes)
    ensures SchemasRead(schemas', names', done + [k], rows, keys, notes)
  {
    SchemasMore(schemas, names, done, rows, keys, notes, k);
    schemas', names' := schemas, names;
    if k.schema !in schemas' {
      schemas' := schemas'[k.schema := []];
      names' := names' + [k.schema];
    }
    schemas' := schemas'[k.schema := schemas'[k.schema] + [t]];
    assert schemas' == schemas[k.schema := Lookup(schemas, k.schema).GetOr([]) + [t]];
  }

  method CollectSchemas(tables: map<TableKey, Table>, order: seq<TableKey>,
                        ghost rows: seq<ColumnRow>, ghost keys: seq<KeyRow>, ghost notes: seq<NoteRow>)
    returns (list: seq<Schema>)
    requires TablesComplete(tables, order, rows, keys, notes)
    ensures list == SchemasFor(Firsts(Keys(order, SchemaOf)), order, rows, keys, notes)
  {
    var schemas: map<string, seq<Table>> := map[];
    var names: seq<string> := [];
    assert Firsts(Keys([], SchemaOf)) == [];
    for n := 0 to |order|
      invariant SchemasRead(schemas, names, order[..n], rows, keys, notes)
    {
      var k := order[n];
      assert k in order && k in tables;
      schemas, names := AddTable(schemas, names, k, tables[k], order[..n], rows, keys, notes);
      assert order[..n + 1] == order[..n] + [k];
    }
    assert order[..|order|] == order;
    list := ListSchemas(schemas, names, order, rows, keys, notes);
  }

  method ListSchemas(schemas: map<string, seq<Table>>, names: seq<string>, ghost order: seq<TableKey>,
                     ghost rows: seq<ColumnRow>, ghost keys: seq<KeyRow>, ghost notes: seq<NoteRow>)
    returns (list: seq<Schema>)
    requires SchemasRead(schemas, names, order, rows, keys, notes)
    ensures list == SchemasFor(names, order, rows, keys, notes)
  {
    list := [];
    for n := 0 to |names|
      invariant list == SchemasFor(names, order, rows, keys, notes)[..n]
    {
      var name := names[n];
      assert name in names && name in schemas;
      list := list + [Schema(name, schemas[name])];
    }
  }

  // --------------------------------------------------------------- foreign keys

  ghost predicate LinksRead(links: map<int, ForeignKey>, ids: seq<int>, rows: seq<LinkRow>) {
    && ids == Firsts(Keys(rows, IdOf))
    && (forall i :: i in links <==> i in ids)
    && (forall i :: i in links ==> Pick(rows, IdOf, i) != [] && links[i] == LinkFrom(Pick(rows, IdOf, i)))
  }

  function Opened(r: LinkRow): ForeignKey {
    ForeignKey(r.name, r.sourceSchema, r.sourceTable, [], r.targetSchema, r.targetTable, [])
  }

  function Linked(f: ForeignKey, r: LinkRow): ForeignKey {
    f.(sourceColumns := f.sourceColumns + [r.sourceColumn], targetColumns := f.targetColumns + [r.targetColumn])
  }

  lemma {:induction false} LinkMore(rows: seq<LinkRow>, r: LinkRow)
    ensures LinkFrom(rows + [r]) == Linked(if rows == [] then Opened(r) else LinkFrom(rows), r)
  {
    assert SourceColumns(rows + [r]) == SourceColumns(rows) + [r.sourceColumn];
    assert TargetColumns(rows + [r]) == TargetColumns(rows) + [r.targetColumn];
  }

  lemma {:induction false} LinksMore(links: map<int, ForeignKey>, ids: seq<int>, rows: seq<LinkRow>, r: LinkRow)
    requires LinksRead(links, ids, rows)
    ensures LinksRead(links[r.objectId := Linked(Lookup(links, r.objectId).GetOr(Opened(r)), r)],
                      if r.objectId in links then ids else ids + [r.objectId], rows + [r])
  {
    var more := links[r.objectId := Linked(Lookup(links, r.objectId).GetOr(Opened(r)), r)];
    KeysMore(rows, IdOf, r);
    forall i | i in more ensures Pick(rows + [r], IdOf, i) != [] && more[i] == LinkFrom(Pick(rows + [r], IdOf, i)) {
      PickMore(rows, IdOf, r, i);
      var own := Pick(rows, IdOf, i);
      assert own + [] == own;
      LinkMore(own, r);
      if i !in links {
        FirstsMember(Keys(rows, IdOf), i);
        PickNone(rows, IdOf, i);
      }
    }
  }

  /** Opens the foreign key at its first row and appends both columns. */
  method AddLink(links: map<int, ForeignKey>, ids: seq<int>, r: LinkRow)
    returns (links': map<int, ForeignKey>, ids': seq<int>)
    ensures links' == links[r.objectId := Linked(Lookup(links, r.objectId).GetOr(Opened(r)), r)]
    ensures ids' == if r.objectId in links then ids else ids + [r.objectId]
  {
    links', ids' := links, ids;
    if r.objectId !in links' {
      links' := links'[r.objectId := Opened(r)];
      ids' := ids' + [r.objectId];
    }
    var f := links'[r.objectId];
    f := f.(sourceColumns := f.sourceColumns + [r.sourceColumn]);
    f := f.(targetColumns := f.targetColumns + [r.targetColumn]);
    links' := links'[r.objectId := f];
  }

  /** The loop body. */
  method ReadLink(links: map<int, ForeignKey>, ids: seq<int>, r: LinkRow, ghost rows: seq<LinkRow>)
    returns (links': map<int, ForeignKey>, ids': seq<int>)
    requires LinksRead(links, ids, rows)
    ensures LinksRead(links', ids', rows + [r])
  {
    LinksMore(links, ids, rows, r);
    links', ids' := AddLink(links, ids, r);
  }

  method CollectLinks(rows: seq<LinkRow>) returns (list: seq<ForeignKey>)
    ensures list == LinksFor(Firsts(Keys(rows, IdOf)), rows)
  {
    var links: map<int, ForeignKey> := map[];
    var ids: seq<int> := [];
    assert Firsts(Keys([], IdOf)) == [];
    for n := 0 to |rows|
      invariant LinksRead(links, ids, rows[..n])
    {
      links, ids := ReadLink(links, ids, rows[n], rows[..n]);
      assert rows[..n + 1] == rows[..n] + [rows[n]];
    }
    assert rows[..|rows|] == rows;
    list := ListLinks(links, ids, rows);
  }

  method ListLinks(links: map<int, ForeignKey>, ids: seq<int>, ghost rows: seq<LinkRow>)
    returns (list: seq<ForeignKey>)
    requires LinksRead(links, ids, rows)
    ensures list == LinksFor(ids, rows)
  {
    list := [];
    for n := 0 to |ids|
      invariant list == LinksFor(ids, rows)[..n]
    {
      var i := ids[n];
      assert i in ids && i in links;
      list := list + [links[i]];
    }
  }

  /** The whole fold computes what the rows mean. */
  method Inspect(rows: seq<ColumnRow>, keys: seq<KeyRow>, links: seq<LinkRow>, notes: seq<NoteRow>)
    returns (r: Inspection)
    ensures r == Inspected(rows, keys, links, notes)
  {
    var bare, order := CollectTables(rows, notes);
    var primary := CollectKeys(keys);
    var tables := AttachKeys(bare, order, primary, rows, keys, notes);
    var schemas := CollectSchemas(tables, order, rows, keys, notes);
    var foreignKeys := CollectLinks(links);
    var tableCount := 0;
    for n := 0 to |schemas|
      invariant tableCount == CountTables(schemas[..n])
    {
      assert schemas[..n + 1][..n] == schemas[..n];
      tableCount := tableCount + |schemas[n].tables|;
    }
    assert schemas[..|schemas|] == schemas;
    r := Inspection(schemas, foreignKeys, |schemas|, tableCount);
  }
}
