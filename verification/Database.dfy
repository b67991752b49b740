/** The database a migration plan runs against: tables, columns with their cells, foreign
    keys, and the precondition and effect of every kind of change. A change is applied only
    if the tables and columns it needs are there and those it creates are not; an update
    statement reads the old row throughout, and the statements of a script follow one
    another. */
module Database {
  import opened Wrappers
  import opened PropertyTypes

  datatype Cell = Null | Value(text: string)

  datatype ColRef = ColRef(table: string, column: string)

  /** One cell per row of the table. */
  datatype Column = Column(info: ColumnInfo, cells: seq<Cell>)

  datatype ForeignKey = ForeignKey(name: string, table: string, column: string, refTable: string, refColumn: string)

  /** tables maps each table to its number of rows. */
  datatype Schema = Schema(tables: map<string, nat>, columns: map<ColRef, Column>, keys: seq<ForeignKey>)

  datatype NewColumn = NewColumn(name: string, columnType: ColumnType)

  /** select result from table where key = the cell in question. */
  datatype Lookup = Lookup(table: string, result: string, key: string)

  /** target = source, cast when the old type does not suit the property; or, for a reference,
      what is found under the source. */
  datatype Copy = Copy(target: string, source: string, cast: Option<string>, find: Option<Lookup>)

  /** Set the discriminator to value where it is null and, if a child table is given, the
      row's key occurs in that table. */
  datatype Update = Update(value: string, child: Option<string>)

  datatype Change =
    | DropForeignKey(table: string, name: string)
    | ModifyDataType(table: string, column: string, newType: ColumnType)
    | DropPrimaryKey(table: string)
    | RenameColumn(table: string, column: string, newName: string)
    | CreateTable(table: string, newColumns: seq<NewColumn>)
    | AddColumns(table: string, newColumns: seq<NewColumn>)
    | CopyData(table: string, copies: seq<Copy>)
    | Backfill(table: string, column: string, key: string, updates: seq<Update>)
    | CreateIndex(table: string, name: string, column: string)
    | AddForeignKey(name: string, table: string, column: string, refTable: string, refColumn: string)
    | AddPrimaryKey(table: string, keyColumns: seq<string>)
    | DropIndex(table: string, name: string)

  /** How the target database realises a type expression, and its cast function. */
  datatype Engine = Engine(realise: Realise, cast: (string, Cell) -> Cell)

  ghost predicate WellFormed(db: Schema) {
    && (forall k | k in db.columns :: k.table in db.tables && |db.columns[k].cells| == db.tables[k.table])
    && (forall i | 0 <= i < |db.keys| :: db.keys[i].table in db.tables)
  }

  function Names(cs: seq<NewColumn>): (s: set<string>) {
    set i | 0 <= i < |cs| :: cs[i].name
  }

  predicate DistinctNames(cs: seq<NewColumn>) {
    forall i, j | 0 <= i < j < |cs| :: cs[i].name != cs[j].name
  }

  function Refs(t: string, names: set<string>): set<ColRef> {
    set n | n in names :: ColRef(t, n)
  }

  /** The columns that finding a cell reads. */
  function Searched(c: Copy): set<ColRef> {
    if c.find.None? then {} else {ColRef(c.find.value.table, c.find.value.key), ColRef(c.find.value.table, c.find.value.result)}
  }

  /** The columns a change requires. */
  function Needs(ch: Change): set<ColRef> {
    match ch
    case ModifyDataType(t, c, _) => {ColRef(t, c)}
    case RenameColumn(t, c, _) => {ColRef(t, c)}
    case CopyData(t, cs) =>
      (set i | 0 <= i < |cs| :: ColRef(t, cs[i].target)) + (set i | 0 <= i < |cs| :: ColRef(t, cs[i].source)) +
      (set i, k | 0 <= i < |cs| && k in Searched(cs[i]) :: k)
    case Backfill(t, c, k, us) =>
      {ColRef(t, c), ColRef(t, k)} + (set i | 0 <= i < |us| && us[i].child.Some? :: ColRef(us[i].child.value, k))
    case CreateIndex(t, _, c) => {ColRef(t, c)}
    case AddForeignKey(_, t, c, rt, rc) => {ColRef(t, c), ColRef(rt, rc)}
    case AddPrimaryKey(t, cs) => set i | 0 <= i < |cs| :: ColRef(t, cs[i])
    case _ => {}
  }

  /** The table a change alters, which must be there unless the change creates it. */
  function TableOf(ch: Change): string {
    ch.table
  }

  /** The columns a change creates, which must be absent. */
  function Creates(ch: Change): set<ColRef> {
    match ch
    case RenameColumn(t, _, n) => {ColRef(t, n)}
    case CreateTable(t, cs) => Refs(t, Names(cs))
    case AddColumns(t, cs) => Refs(t, Names(cs))
    case _ => {}
  }

  /** The columns that are gone after a change. */
  function Removes(ch: Change): set<ColRef> {
    match ch
    case RenameColumn(t, c, _) => {ColRef(t, c)}
    case _ => {}
  }

  /** The foreign keys that are there, each told by its table and its name. */
  function KeyNames(db: Schema): set<(string, string)> {
    set i | 0 <= i < |db.keys| :: (db.keys[i].table, db.keys[i].name)
  }

  /** The foreign key a change removes, which must be there. */
  function DropsKey(ch: Change): set<(string, string)> {
    if ch.DropForeignKey? then {(ch.table, ch.name)} else {}
  }

  /** The foreign key a change adds, which must be absent. */
  function AddsKey(ch: Change): set<(string, string)> {
    if ch.AddForeignKey? then {(ch.table, ch.name)} else {}
  }

  ghost predicate CanApply(db: Schema, ch: Change) {
    && Needs(ch) <= db.columns.Keys
    && Creates(ch) !! db.columns.Keys
    && (ch.CreateTable? <==> TableOf(ch) !in db.tables)
    && (ch.CreateTable? || ch.AddColumns? ==> DistinctNames(ch.newColumns))
    && DropsKey(ch) <= KeyNames(db)
    && AddsKey(ch) !! KeyNames(db)
  }

  function Nulls(n: nat): seq<Cell> {
    seq(n, _ => Null)
  }

  function WithColumns(columns: map<ColRef, Column>, t: string, cs: seq<NewColumn>, rows: nat, realise: Realise): map<ColRef, Column> {
    if cs == [] then columns
    else WithColumns(columns, t, cs[..|cs| - 1], rows, realise)
         [ColRef(t, cs[|cs| - 1].name) := Column(realise(cs[|cs| - 1].columnType), Nulls(rows))]
  }

  function CopyCells(cells: seq<Cell>, cast: Option<string>, engine: Engine): (r: seq<Cell>)
    ensures |r| == |cells|
  {
    if cast.None? then cells else seq(|cells|, i requires 0 <= i < |cells| => engine.cast(cast.value, cells[i]))
  }

  /** The cell of the row whose key is this cell: null where there is none. */
  function FoundCell(cell: Cell, keys: seq<Cell>, results: seq<Cell>): Cell {
    if keys == [] || results == [] then Null
    else if cell != Null && keys[0] == cell then results[0]
    else FoundCell(cell, keys[1..], results[1..])
  }

  function FoundCells(cells: seq<Cell>, keys: seq<Cell>, results: seq<Cell>): (r: seq<Cell>)
    ensures |r| == |cells| && forall i | 0 <= i < |cells| :: r[i] == FoundCell(cells[i], keys, results)
  {
    seq(|cells|, i requires 0 <= i < |cells| => FoundCell(cells[i], keys, results))
  }

  predicate CopyReady(columns: set<ColRef>, t: string, c: Copy) {
    ColRef(t, c.source) in columns && ColRef(t, c.target) in columns && Searched(c) <= columns
  }

  function CopiedCells(before: map<ColRef, Column>, t: string, c: Copy, engine: Engine): (r: seq<Cell>)
    requires CopyReady(before.Keys, t, c)
    ensures |r| == |before[ColRef(t, c.source)].cells|
  {
    var cells := before[ColRef(t, c.source)].cells;
    if c.find.None? then CopyCells(cells, c.cast, engine)
    else
      assert ColRef(c.find.value.table, c.find.value.key) in Searched(c) && ColRef(c.find.value.table, c.find.value.result) in Searched(c);
      FoundCells(cells, before[ColRef(c.find.value.table, c.find.value.key)].cells, before[ColRef(c.find.value.table, c.find.value.result)].cells)
  }

  /** The assignments of one update statement all read the old rows. */
  function WithCopies(before: map<ColRef, Column>, t: string, cs: seq<Copy>, engine: Engine): map<ColRef, Column>
    requires forall i | 0 <= i < |cs| :: CopyReady(before.Keys, t, cs[i])
  {
    if cs == [] then before
    else
      var c := cs[|cs| - 1];
      assert CopyReady(before.Keys, t, c);
      WithCopies(before, t, cs[..|cs| - 1], engine)
      [ColRef(t, c.target) := Column(before[ColRef(t, c.target)].info, CopiedCells(before, t, c, engine))]
  }

  /** key in (select key from child): a null key is in no table. */
  predicate InChild(key: Cell, child: Column) {
    key != Null && key in child.cells
  }

  function UpdateCell(cell: Cell, key: Cell, u: Update, keys: map<ColRef, Column>, keyName: string): Cell
    requires u.child.Some? ==> ColRef(u.child.value, keyName) in keys
  {
    if cell == Null && (u.child.None? || InChild(key, keys[ColRef(u.child.value, keyName)])) then Value(u.value) else cell
  }

  /** The update statements of a script, one after the other, on one row. */
  function UpdateRow(cell: Cell, key: Cell, us: seq<Update>, keys: map<ColRef, Column>, keyName: string): Cell
    requires forall i | 0 <= i < |us| && us[i].child.Some? :: ColRef(us[i].child.value, keyName) in keys
    decreases |us|
  {
    if us == [] then cell
    else UpdateRow(UpdateCell(cell, key, us[0], keys, keyName), key, us[1..], keys, keyName)
  }

  function Apply(engine: Engine, db: Schema, ch: Change): Schema
    requires WellFormed(db) && CanApply(db, ch)
  {
    match ch
    case DropForeignKey(t, n) => db.(keys := WithoutKey(db.keys, t, n))
    case ModifyDataType(t, c, ty) =>
      db.(columns := db.columns[ColRef(t, c) := Column(engine.realise(ty), db.columns[ColRef(t, c)].cells)])
    case RenameColumn(t, c, n) =>
      assert ColRef(t, c) in Needs(ch);
      db.(columns := (db.columns - {ColRef(t, c)})[ColRef(t, n) := db.columns[ColRef(t, c)]])
    case CreateTable(t, cs) =>
      db.(tables := db.tables[t := 0], columns := WithColumns(db.columns, t, cs, 0, engine.realise))
    case AddColumns(t, cs) =>
      db.(columns := WithColumns(db.columns, t, cs, db.tables[t], engine.realise))
    case CopyData(t, cs) =>
      NeedsOfCopy(t, cs, db.columns.Keys);
      db.(columns := WithCopies(db.columns, t, cs, engine))
    case Backfill(t, c, k, us) =>
      NeedsOfBackfill(t, c, k, us, db.columns.Keys);
      var target, key := db.columns[ColRef(t, c)], db.columns[ColRef(t, k)];
      var cells := seq(|target.cells|, i requires 0 <= i < |target.cells| => UpdateRow(target.cells[i], key.cells[i], us, db.columns, k));
      db.(columns := db.columns[ColRef(t, c) := Column(target.info, cells)])
    case AddForeignKey(n, t, c, rt, rc) => db.(keys := db.keys + [ForeignKey(n, t, c, rt, rc)])
    case _ => db
  }

  function WithoutKey(keys: seq<ForeignKey>, t: string, n: string): seq<ForeignKey> {
    if keys == [] then []
    else (if keys[0].table == t && keys[0].name == n then [] else [keys[0]]) + WithoutKey(keys[1..], t, n)
  }

  lemma NeedsOfCopy(t: string, cs: seq<Copy>, columns: set<ColRef>)
    requires Needs(CopyData(t, cs)) <= columns
    ensures forall i | 0 <= i < |cs| :: CopyReady(columns, t, cs[i])
  {
    hide Searched;
    forall i | 0 <= i < |cs| ensures CopyReady(columns, t, cs[i]) {
      assert ColRef(t, cs[i].source) in Needs(CopyData(t, cs)) && ColRef(t, cs[i].target) in Needs(CopyData(t, cs));
      forall k | k in Searched(cs[i]) ensures k in columns {
        assert k in Needs(CopyData(t, cs));
      }
    }
  }

  lemma NeedsOfBackfill(t: string, c: string, k: string, us: seq<Update>, columns: set<ColRef>)
    requires Needs(Backfill(t, c, k, us)) <= columns
    ensures ColRef(t, c) in columns && ColRef(t, k) in columns
    ensures forall i | 0 <= i < |us| && us[i].child.Some? :: ColRef(us[i].child.value, k) in columns
  {
    var ch := Backfill(t, c, k, us);
    assert ColRef(t, c) in Needs(ch) && ColRef(t, k) in Needs(ch);
    forall i | 0 <= i < |us| && us[i].child.Some? ensures ColRef(us[i].child.value, k) in columns {
      assert ColRef(us[i].child.value, k) in Needs(ch);
    }
  }

  lemma {:induction false} WithColumnsKeys(columns: map<ColRef, Column>, t: string, cs: seq<NewColumn>, rows: nat, realise: Realise)
    ensures var r := WithColumns(columns, t, cs, rows, realise);
            && r.Keys == columns.Keys + Refs(t, Names(cs))
            && (forall k | k in columns && k !in Refs(t, Names(cs)) :: r[k] == columns[k])
            && (forall k | k in Refs(t, Names(cs)) :: |r[k].cells| == rows)
  {
    if cs != [] {
      var front, c := cs[..|cs| - 1], cs[|cs| - 1];
      WithColumnsKeys(columns, t, front, rows, realise);
      assert Names(cs) == Names(front) + {c.name} by {
        forall n | n in Names(cs) ensures n in Names(front) + {c.name} {
          var i :| 0 <= i < |cs| && cs[i].name == n;
          assert i < |front| ==> front[i].name == n;
        }
        forall n | n in Names(front) ensures n in Names(cs) {
          var i :| 0 <= i < |front| && front[i].name == n;
          assert cs[i].name == n;
        }
        assert cs[|cs| - 1].name in Names(cs);
      }
      assert Refs(t, Names(cs)) == Refs(t, Names(front)) + {ColRef(t, c.name)};
    }
  }

  /** Each new column holds nulls and is reported with the type it was created with. */
  lemma {:induction false} WithColumnsInfo(columns: map<ColRef, Column>, t: string, cs: seq<NewColumn>, rows: nat, realise: Realise, i: nat)
    requires DistinctNames(cs) && i < |cs|
    ensures var r := WithColumns(columns, t, cs, rows, realise);
            ColRef(t, cs[i].name) in r && r[ColRef(t, cs[i].name)] == Column(realise(cs[i].columnType), Nulls(rows))
  {
    if i < |cs| - 1 {
      WithColumnsInfo(columns, t, cs[..|cs| - 1], rows, realise, i);
    }
  }

  lemma {:induction false} WithCopiesAt(before: map<ColRef, Column>, t: string, cs: seq<Copy>, engine: Engine, k: ColRef)
    requires forall i | 0 <= i < |cs| :: CopyReady(before.Keys, t, cs[i])
    requires k in before
    ensures var r := WithCopies(before, t, cs, engine);
            && r.Keys == before.Keys && r[k].info == before[k].info
            && ((forall i | 0 <= i < |cs| :: k != ColRef(t, cs[i].target)) ==> r[k] == before[k])
            && (r[k] != before[k] ==> k.table == t && exists i :: 0 <= i < |cs| && |r[k].cells| == |before[ColRef(t, cs[i].source)].cells|)
  {
    if cs != [] {
      var front, c := cs[..|cs| - 1], cs[|cs| - 1];
      WithCopiesAt(before, t, front, engine, k);
      var r := WithCopies(before, t, cs, engine);
      if k == ColRef(t, c.target) {
        assert |r[k].cells| == |before[ColRef(t, cs[|cs| - 1].source)].cells|;
      }
    }
  }

  lemma WithCopiesEffect(before: map<ColRef, Column>, t: string, cs: seq<Copy>, engine: Engine)
    requires forall i | 0 <= i < |cs| :: CopyReady(before.Keys, t, cs[i])
    ensures var r := WithCopies(before, t, cs, engine);
            && r.Keys == before.Keys
            && (forall k | k in before && (forall i | 0 <= i < |cs| :: k != ColRef(t, cs[i].target)) :: r[k] == before[k])
            && (forall k | k in before :: r[k].info == before[k].info)
            && (forall k | k in before && r[k] != before[k] ::
                  k.table == t && exists i :: 0 <= i < |cs| && |r[k].cells| == |before[ColRef(t, cs[i].source)].cells|)
  {
    hide WithCopies;
    var r := WithCopies(before, t, cs, engine);
    if cs == [] {
      NoCopies(before, t, cs, engine);
    } else {
      WithCopiesAt(before, t, cs, engine, ColRef(t, cs[0].target));
    }
    forall k | k in before
      ensures k in r && r[k].info == before[k].info
      ensures (forall i | 0 <= i < |cs| :: k != ColRef(t, cs[i].target)) ==> r[k] == before[k]
      ensures r[k] != before[k] ==> k.table == t && exists i :: 0 <= i < |cs| && |r[k].cells| == |before[ColRef(t, cs[i].source)].cells| {
      WithCopiesAt(before, t, cs, engine, k);
    }
  }

  lemma NoCopies(before: map<ColRef, Column>, t: string, cs: seq<Copy>, engine: Engine)
    requires cs == []
    ensures WithCopies(before, t, cs, engine) == before
  {
  }

  lemma {:induction false} WithCopiesValue(before: map<ColRef, Column>, t: string, cs: seq<Copy>, engine: Engine, i: nat)
    requires forall i | 0 <= i < |cs| :: CopyReady(before.Keys, t, cs[i])
    requires forall i, j | 0 <= i < j < |cs| :: cs[i].target != cs[j].target
    requires i < |cs|
    ensures var r := WithCopies(before, t, cs, engine);
            ColRef(t, cs[i].target) in r &&
            r[ColRef(t, cs[i].target)].cells == CopiedCells(before, t, cs[i], engine)
  {
    if i < |cs| - 1 {
      WithCopiesValue(before, t, cs[..|cs| - 1], engine, i);
    }
  }

  lemma {:induction false} WithoutKeyMember(keys: seq<ForeignKey>, t: string, n: string, fk: ForeignKey)
    ensures fk in WithoutKey(keys, t, n) <==> fk in keys && !(fk.table == t && fk.name == n)
  {
    if keys != [] {
      WithoutKeyMember(keys[1..], t, n, fk);
      assert keys == [keys[0]] + keys[1..];
    }
  }

  lemma CreateEffect(engine: Engine, db: Schema, ch: Change)
    requires WellFormed(db) && CanApply(db, ch) && (ch.CreateTable? || ch.AddColumns?)
    ensures WellFormed(Apply(engine, db, ch)) && Apply(engine, db, ch).columns.Keys == db.columns.Keys + Creates(ch)
  {
    WithColumnsKeys(db.columns, ch.table, ch.newColumns, if ch.CreateTable? then 0 else db.tables[ch.table], engine.realise);
  }

  lemma CopyEffect(engine: Engine, db: Schema, ch: Change)
    requires WellFormed(db) && CanApply(db, ch) && ch.CopyData?
    ensures WellFormed(Apply(engine, db, ch)) && Apply(engine, db, ch).columns.Keys == db.columns.Keys
  {
    var r, t, cs := Apply(engine, db, ch), ch.table, ch.copies;
    NeedsOfCopy(t, cs, db.columns.Keys);
    WithCopiesEffect(db.columns, t, cs, engine);
    forall k | k in r.columns ensures |r.columns[k].cells| == db.tables[k.table] {
      if r.columns[k] != db.columns[k] {
        var i :| 0 <= i < |cs| && |r.columns[k].cells| == |db.columns[ColRef(t, cs[i].source)].cells|;
        assert ColRef(t, cs[i].source).table == t;
      }
    }
  }

  lemma KeysEffect(engine: Engine, db: Schema, ch: Change)
    requires WellFormed(db) && CanApply(db, ch) && (ch.DropForeignKey? || ch.AddForeignKey?)
    ensures WellFormed(Apply(engine, db, ch))
  {
    var r := Apply(engine, db, ch);
    if ch.DropForeignKey? {
      forall i | 0 <= i < |r.keys| ensures r.keys[i].table in r.tables {
        WithoutKeyMember(db.keys, ch.table, ch.name, r.keys[i]);
        assert r.keys[i] in r.keys;
        var j :| 0 <= j < |db.keys| && db.keys[j] == r.keys[i];
      }
    }
  }

  lemma CellEffect(engine: Engine, db: Schema, ch: Change)
    requires WellFormed(db) && CanApply(db, ch) && (ch.Backfill? || ch.ModifyDataType? || ch.RenameColumn?)
    ensures WellFormed(Apply(engine, db, ch)) && Apply(engine, db, ch).columns.Keys == db.columns.Keys - Removes(ch) + Creates(ch)
  {
    if ch.Backfill? {
      NeedsOfBackfill(ch.table, ch.column, ch.key, ch.updates, db.columns.Keys);
    }
  }

  /** One change keeps the schema well formed and moves its sets of tables and columns as declared. */
  lemma ApplyEffect(engine: Engine, db: Schema, ch: Change)
    requires WellFormed(db) && CanApply(db, ch)
    ensures var r := Apply(engine, db, ch);
            && WellFormed(r)
            && r.columns.Keys == db.columns.Keys - Removes(ch) + Creates(ch)
            && r.tables.Keys == db.tables.Keys + (if ch.CreateTable? then {ch.table} else {})
            && (forall t | t in db.tables :: r.tables[t] == db.tables[t])
  {
    hide WellFormed, WithColumns, WithCopies, WithoutKey;
    if ch.CreateTable? || ch.AddColumns? {
      CreateEffect(engine, db, ch);
    } else if ch.CopyData? {
      CopyEffect(engine, db, ch);
    } else if ch.DropForeignKey? || ch.AddForeignKey? {
      KeysEffect(engine, db, ch);
    } else if ch.Backfill? || ch.ModifyDataType? || ch.RenameColumn? {
      CellEffect(engine, db, ch);
    }
  }

  lemma WithoutKeyNames(db: Schema, t: string, n: string)
    ensures KeyNames(db.(keys := WithoutKey(db.keys, t, n))) == KeyNames(db) - {(t, n)}
  {
    var rest := WithoutKey(db.keys, t, n);
    forall k ensures k in KeyNames(db.(keys := rest)) <==> k in KeyNames(db) && k != (t, n) {
      if k in KeyNames(db.(keys := rest)) {
        var i :| 0 <= i < |rest| && (rest[i].table, rest[i].name) == k;
        WithoutKeyMember(db.keys, t, n, rest[i]);
        assert rest[i] in rest;
        var j :| 0 <= j < |db.keys| && db.keys[j] == rest[i];
      }
      if k in KeyNames(db) && k != (t, n) {
        var i :| 0 <= i < |db.keys| && (db.keys[i].table, db.keys[i].name) == k;
        WithoutKeyMember(db.keys, t, n, db.keys[i]);
        var j :| 0 <= j < |rest| && rest[j] == db.keys[i];
      }
    }
  }

  lemma WithKeyNames(db: Schema, fk: ForeignKey)
    ensures KeyNames(db.(keys := db.keys + [fk])) == KeyNames(db) + {(fk.table, fk.name)}
  {
    var all := db.keys + [fk];
    forall k ensures k in KeyNames(db.(keys := all)) <==> k in KeyNames(db) || k == (fk.table, fk.name) {
      if k in KeyNames(db) {
        var i :| 0 <= i < |db.keys| && (db.keys[i].table, db.keys[i].name) == k;
        assert (all[i].table, all[i].name) == k;
      }
      if k == (fk.table, fk.name) {
        assert (all[|db.keys|].table, all[|db.keys|].name) == k;
      }
    }
  }

  /** One change moves the set of foreign keys as declared. */
  lemma ApplyKeys(engine: Engine, db: Schema, ch: Change)
    requires WellFormed(db) && CanApply(db, ch)
    ensures KeyNames(Apply(engine, db, ch)) == KeyNames(db) - DropsKey(ch) + AddsKey(ch)
  {
    hide WellFormed, WithColumns, WithCopies, WithoutKey;
    if ch.DropForeignKey? {
      WithoutKeyNames(db, ch.table, ch.name);
    } else if ch.AddForeignKey? {
      WithKeyNames(db, ForeignKey(ch.name, ch.table, ch.column, ch.refTable, ch.refColumn));
    } else {
      assert Apply(engine, db, ch).keys == db.keys;
    }
  }

  /** Runs the changes in order; None when one of them cannot be applied. */
  ghost function Run(engine: Engine, db: Schema, plan: seq<Change>): Option<Schema>
    requires WellFormed(db)
    decreases |plan|
  {
    if plan == [] then Some(db)
    else if CanApply(db, plan[0]) then
      ApplyEffect(engine, db, plan[0]);
      Run(engine, Apply(engine, db, plan[0]), plan[1..])
    else None
  }

  lemma {:induction false} RunWellFormed(engine: Engine, db: Schema, plan: seq<Change>)
    requires WellFormed(db) && Run(engine, db, plan).Some?
    ensures WellFormed(Run(engine, db, plan).value)
    decreases |plan|
  {
    if plan != [] {
      ApplyEffect(engine, db, plan[0]);
      RunWellFormed(engine, Apply(engine, db, plan[0]), plan[1..]);
    }
  }

  lemma {:induction false} RunConcat(engine: Engine, db: Schema, a: seq<Change>, b: seq<Change>)
    requires WellFormed(db)
    ensures Run(engine, db, a).None? ==> Run(engine, db, a + b).None?
    ensures Run(engine, db, a).Some? ==>
              WellFormed(Run(engine, db, a).value) && Run(engine, db, a + b) == Run(engine, Run(engine, db, a).value, b)
    decreases |a|
  {
    if a == [] {
      assert a + b == b;
    } else {
      assert (a + b)[1..] == a[1..] + b;
      if CanApply(db, a[0]) {
        ApplyEffect(engine, db, a[0]);
        RunConcat(engine, Apply(engine, db, a[0]), a[1..], b);
      }
    }
  }
}
