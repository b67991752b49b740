/** Which columns and tables each bucket of a plan removes and creates, stated exactly: the
    renamed columns are the migrated ones, the created ones are those the model asks for.
    Class tables come first, relation tables after them; the shapes of single changes lead
    from a bucket back to the class and the property that filled it, and forth. */
module PlanColumns {
  import opened Wrappers
  import opened PropertyTypes
  import opened Database
  import opened Batches
  import opened DeployPlan
  import opened PlanShape

  function Bucketed(ctx: Deployment, b: Bucket): seq<Change> {
    BucketChanges(ctx, ctx.order, b)
  }

  function Ref(ctx: Deployment, c: ClassDef, pm: PropertyMeta): ColRef {
    ColRef(Table(ctx, c), ColumnName(ctx, pm))
  }

  function SavedRef(ctx: Deployment, k: ColRef): ColRef {
    ColRef(k.table, Saved(ctx, k.column))
  }

  /** k is a class-table column that the plan renames. */
  ghost predicate Renamed(ctx: Deployment, k: ColRef) {
    exists c, pm :: IsProperty(ctx, c, pm) && Migrates(ctx, c, pm) && k == Ref(ctx, c, pm)
  }

  /** The plan creates a column of this name in the table of class c. */
  ghost predicate NewIn(ctx: Deployment, c: ClassDef, name: string) {
    || (exists pm :: pm in Properties(ctx, c) && GetsColumn(ctx, c, pm) && name == NewName(ctx, c, pm))
    || (GetsKeyColumn(ctx, c) && name == ctx.settings.naming.column(KeyProperty(ctx, c).value.name))
  }

  ghost predicate NewClassColumn(ctx: Deployment, k: ColRef, existing: bool) {
    exists c :: IsClass(ctx, c) && k.table == Table(ctx, c) && (existing <==> Table(ctx, c) in ctx.db.tables) && NewIn(ctx, c, k.column)
  }

  lemma RenamesShape(ctx: Deployment, ch: Change)
    requires ch in Bucketed(ctx, RenameColumns)
    ensures ch.RenameColumn? && Renamed(ctx, ColRef(ch.table, ch.column)) && ch.newName == Saved(ctx, ch.column)
  {
    hide BucketChanges, Properties, SituationOf, Saved;
    var c, pm := FromBucket(ctx, RenameColumns, ch);
    assert ColRef(ch.table, ch.column) == Ref(ctx, c, pm);
  }

  lemma RenamesExact(ctx: Deployment, k: ColRef)
    ensures Removing(Bucketed(ctx, RenameColumns), k) <==> Renamed(ctx, k)
    ensures Creating(Bucketed(ctx, RenameColumns), k) <==> exists k0 :: Renamed(ctx, k0) && k == SavedRef(ctx, k0)
  {
    hide Bucketed, Renamed;
    var b := Bucketed(ctx, RenameColumns);
    if Removing(b, k) {
      var i :| 0 <= i < |b| && k in Removes(b[i]);
      RenamesShape(ctx, b[i]);
    }
    if Creating(b, k) {
      var i :| 0 <= i < |b| && k in Creates(b[i]);
      RenamesShape(ctx, b[i]);
      assert k == SavedRef(ctx, ColRef(b[i].table, b[i].column));
    }
    if Renamed(ctx, k) {
      RenameOf(ctx, k);
    }
    if exists k0 :: Renamed(ctx, k0) && k == SavedRef(ctx, k0) {
      var k0 :| Renamed(ctx, k0) && k == SavedRef(ctx, k0);
      RenameOf(ctx, k0);
    }
  }

  lemma RenameOf(ctx: Deployment, k: ColRef)
    requires Renamed(ctx, k)
    ensures RenameColumn(k.table, k.column, Saved(ctx, k.column)) in Bucketed(ctx, RenameColumns)
    ensures Removing(Bucketed(ctx, RenameColumns), k) && Creating(Bucketed(ctx, RenameColumns), SavedRef(ctx, k))
  {
    hide BucketChanges, Properties, SituationOf;
    var c, pm :| IsProperty(ctx, c, pm) && Migrates(ctx, c, pm) && k == Ref(ctx, c, pm);
    var ch := RenameColumn(k.table, k.column, Saved(ctx, k.column));
    IntoBucket(ctx, RenameColumns, c, pm, ch);
    RenameMoves(Bucketed(ctx, RenameColumns), ch);
  }

  /** The columns of a CreateTable or AddColumns change of a class. */
  function ClassColumns(ctx: Deployment, c: ClassDef): seq<NewColumn> {
    if Table(ctx, c) in ctx.db.tables then AllColumns(ctx, c, Properties(ctx, c)) + KeyColumns(ctx, c)
    else KeyColumns(ctx, c) + AllColumns(ctx, c, Properties(ctx, c))
  }

  lemma ClassColumnsExact(ctx: Deployment, c: ClassDef, name: string)
    ensures name in Names(ClassColumns(ctx, c)) <==> NewIn(ctx, c, name)
  {
    var ps, all := Properties(ctx, c), AllColumns(ctx, c, Properties(ctx, c));
    NameOfColumn(ClassColumns(ctx, c), name);
    if name in Names(ClassColumns(ctx, c)) {
      var col :| col in ClassColumns(ctx, c) && col.name == name;
      if col in all {
        var pm := FromColumns(ctx, c, ps, col);
      }
    }
    if exists pm :: pm in ps && GetsColumn(ctx, c, pm) && name == NewName(ctx, c, pm) {
      var pm :| pm in ps && GetsColumn(ctx, c, pm) && name == NewName(ctx, c, pm);
      ToColumns(ctx, c, ps, pm);
      assert NewColumnOf(ctx, pm, name) in ClassColumns(ctx, c);
    }
    if GetsKeyColumn(ctx, c) && name == ctx.settings.naming.column(KeyProperty(ctx, c).value.name) {
      assert KeyColumns(ctx, c)[0] in ClassColumns(ctx, c);
    }
  }

  lemma TablesShape(ctx: Deployment, ch: Change) returns (c: ClassDef)
    requires ch in Bucketed(ctx, CreateTables)
    ensures IsClass(ctx, c) && Table(ctx, c) !in ctx.db.tables && ch == CreateTable(Table(ctx, c), ClassColumns(ctx, c))
  {
    hide BucketChanges, Properties, AllColumns, KeyColumns;
    c := FromClass(ctx, ctx.order, CreateTables, ch);
  }

  lemma AddsShape(ctx: Deployment, ch: Change) returns (c: ClassDef)
    requires ch in Bucketed(ctx, AddedColumns)
    ensures IsClass(ctx, c) && Table(ctx, c) in ctx.db.tables && ch == AddColumns(Table(ctx, c), ClassColumns(ctx, c))
  {
    hide BucketChanges, Properties, AllColumns, KeyColumns;
    c := FromClass(ctx, ctx.order, AddedColumns, ch);
  }

  lemma NewColumnsExact(ctx: Deployment, k: ColRef)
    ensures Creating(Bucketed(ctx, CreateTables), k) <==> NewClassColumn(ctx, k, false)
    ensures Creating(Bucketed(ctx, AddedColumns), k) <==> NewClassColumn(ctx, k, true)
  {
    hide Bucketed, NewIn, ClassColumns;
    var b, d := Bucketed(ctx, CreateTables), Bucketed(ctx, AddedColumns);
    if Creating(b, k) {
      var i :| 0 <= i < |b| && k in Creates(b[i]);
      var c := TablesShape(ctx, b[i]);
      ClassColumnsExact(ctx, c, k.column);
    }
    if Creating(d, k) {
      var i :| 0 <= i < |d| && k in Creates(d[i]);
      var c := AddsShape(ctx, d[i]);
      ClassColumnsExact(ctx, c, k.column);
    }
    forall c | IsClass(ctx, c) && k.table == Table(ctx, c) && NewIn(ctx, c, k.column)
      ensures Creating(if Table(ctx, c) in ctx.db.tables then d else b, k)
    {
      ColumnCreated(ctx, c, k.column);
    }
  }

  lemma ColumnCreated(ctx: Deployment, c: ClassDef, name: string)
    requires IsClass(ctx, c) && NewIn(ctx, c, name)
    ensures Creating(Bucketed(ctx, if Table(ctx, c) in ctx.db.tables then AddedColumns else CreateTables), ColRef(Table(ctx, c), name))
  {
    hide BucketChanges, ClassChanges, ClassColumns, NewIn;
    ClassColumnsExact(ctx, c, name);
    var t, k := Table(ctx, c), ColRef(Table(ctx, c), name);
    var b := if t in ctx.db.tables then AddedColumns else CreateTables;
    var ch := if t in ctx.db.tables then AddColumns(t, ClassColumns(ctx, c)) else CreateTable(t, ClassColumns(ctx, c));
    TableChange(ctx, c);
    ToBucket(ctx, ctx.order, b, c, ch);
    var s := Bucketed(ctx, b);
    var i :| 0 <= i < |s| && s[i] == ch;
    assert k in Creates(s[i]);
  }

  /** The one change that makes the new columns of a class. */
  lemma TableChange(ctx: Deployment, c: ClassDef)
    ensures Table(ctx, c) !in ctx.db.tables ==>
              CreateTable(Table(ctx, c), ClassColumns(ctx, c)) in ClassChanges(ctx, c, Properties(ctx, c), CreateTables)
    ensures Table(ctx, c) in ctx.db.tables && ClassColumns(ctx, c) != [] ==>
              AddColumns(Table(ctx, c), ClassColumns(ctx, c)) in ClassChanges(ctx, c, Properties(ctx, c), AddedColumns)
  {
    hide AllColumns, KeyColumns, Properties;
  }

  lemma NewTablesExact(ctx: Deployment, t: string)
    ensures CreatingTable(Bucketed(ctx, CreateTables), t) <==> exists c :: IsClass(ctx, c) && t == Table(ctx, c) && t !in ctx.db.tables
  {
    hide BucketChanges, ClassChanges, ClassColumns;
    var b := Bucketed(ctx, CreateTables);
    if CreatingTable(b, t) {
      var i :| 0 <= i < |b| && b[i].CreateTable? && b[i].table == t;
      var c := TablesShape(ctx, b[i]);
    }
    if exists c :: IsClass(ctx, c) && t == Table(ctx, c) && t !in ctx.db.tables {
      var c :| IsClass(ctx, c) && t == Table(ctx, c) && t !in ctx.db.tables;
      var ch := CreateTable(t, ClassColumns(ctx, c));
      TableChange(ctx, c);
      ToBucket(ctx, ctx.order, CreateTables, c, ch);
      var i :| 0 <= i < |b| && b[i] == ch;
    }
  }

  // Relation tables.

  /** r is the relation table between c and other. */
  ghost predicate Relates(ctx: Deployment, c: ClassDef, other: ClassDef, r: string) {
    exists pm :: IsProperty(ctx, c, pm) && OwnsRelation(ctx, c, pm) && r == Relation(ctx, c, pm) && other == Find(ctx, pm.itemsClass).value
  }

  /** k is a column of an existing relation table that the plan renames. */
  ghost predicate SideRenamed(ctx: Deployment, k: ColRef) {
    exists c, other ::
      && Relates(ctx, c, other, k.table) && k.table in ctx.db.tables
      && ((k.column == "master" && SideDecision(ctx, k.table, "master", c) == Some(Migrate)) ||
          (k.column == "detail" && SideDecision(ctx, k.table, "detail", other) == Some(Migrate)))
  }

  ghost predicate NewRelationColumn(ctx: Deployment, k: ColRef) {
    k.table !in ctx.db.tables && (k.column == "master" || k.column == "detail") && exists c, other :: Relates(ctx, c, other, k.table)
  }

  predicate RelationBucket(b: Bucket) {
    b in {DropRelPK, RenameRelColumns, ModifyRelTypes, CreateRelTables, AddRelColumns, RelDataMigrate, CreateRelPK, CreateRelFKs}
  }

  lemma FromRelation(ctx: Deployment, b: Bucket, ch: Change) returns (c: ClassDef, other: ClassDef, r: string)
    requires RelationBucket(b) && ch in Bucketed(ctx, b)
    ensures Relates(ctx, c, other, r) && ch in RelationChanges(ctx, c, other, r, b) && IsClass(ctx, c) && IsClass(ctx, other)
  {
    hide BucketChanges, Properties, RelationChanges, SituationOf;
    var pm;
    c, pm := FromBucket(ctx, b, ch);
    OnlyRelation(ctx, c, pm, b);
    hide PropertyChanges;
    other, r := Find(ctx, pm.itemsClass).value, Relation(ctx, c, pm);
    assert Grounded(ctx, pm.itemsClass);
  }

  lemma OnlyRelation(ctx: Deployment, c: ClassDef, pm: PropertyMeta, b: Bucket)
    requires RelationBucket(b)
    ensures PropertyBucket(b) && PropertyChanges(ctx, c, pm, b) == RelationPart(ctx, c, pm, b)
  {
    hide RelationPart;
  }

  lemma IntoRelation(ctx: Deployment, b: Bucket, c: ClassDef, other: ClassDef, r: string, ch: Change)
    requires RelationBucket(b) && Relates(ctx, c, other, r) && ch in RelationChanges(ctx, c, other, r, b)
    ensures ch in Bucketed(ctx, b)
  {
    hide BucketChanges, Properties, RelationChanges, SituationOf;
    var pm :| IsProperty(ctx, c, pm) && OwnsRelation(ctx, c, pm) && r == Relation(ctx, c, pm) && other == Find(ctx, pm.itemsClass).value;
    OnlyRelation(ctx, c, pm, b);
    hide PropertyChanges;
    IntoBucket(ctx, b, c, pm, ch);
  }

  lemma RelatesClasses(ctx: Deployment, c: ClassDef, other: ClassDef, r: string)
    requires Relates(ctx, c, other, r)
    ensures IsClass(ctx, c) && IsClass(ctx, other)
  {
    var pm :| IsProperty(ctx, c, pm) && OwnsRelation(ctx, c, pm) && r == Relation(ctx, c, pm) && other == Find(ctx, pm.itemsClass).value;
    assert Grounded(ctx, pm.itemsClass);
  }

  lemma SideShape(ctx: Deployment, ch: Change)
    requires ch in Bucketed(ctx, RenameRelColumns)
    ensures ch.RenameColumn? && SideRenamed(ctx, ColRef(ch.table, ch.column)) && ch.newName == Saved(ctx, ch.column)
  {
    hide Bucketed, KeyProperty;
    var c, other, r := FromRelation(ctx, RenameRelColumns, ch);
    if ch in SideChanges(ctx, r, "master", c, RenameRelColumns) {
      assert Relates(ctx, c, other, ch.table);
    } else {
      assert ch in SideChanges(ctx, r, "detail", other, RenameRelColumns);
    }
  }

  lemma SideRenameOf(ctx: Deployment, k: ColRef)
    requires SideRenamed(ctx, k)
    ensures RenameColumn(k.table, k.column, Saved(ctx, k.column)) in Bucketed(ctx, RenameRelColumns)
    ensures Removing(Bucketed(ctx, RenameRelColumns), k) && Creating(Bucketed(ctx, RenameRelColumns), SavedRef(ctx, k))
  {
    hide Bucketed, Relates, SideDecision, RelationChanges;
    var c, other :|
      && Relates(ctx, c, other, k.table) && k.table in ctx.db.tables
      && ((k.column == "master" && SideDecision(ctx, k.table, "master", c) == Some(Migrate)) ||
          (k.column == "detail" && SideDecision(ctx, k.table, "detail", other) == Some(Migrate)));
    var ch := RenameColumn(k.table, k.column, Saved(ctx, k.column));
    SideRenaming(ctx, c, other, k);
    IntoRelation(ctx, RenameRelColumns, c, other, k.table, ch);
    RenameMoves(Bucketed(ctx, RenameRelColumns), ch);
  }

  lemma RenameMoves(s: seq<Change>, ch: Change)
    requires ch in s && ch.RenameColumn?
    ensures Removing(s, ColRef(ch.table, ch.column)) && Creating(s, ColRef(ch.table, ch.newName))
  {
    var i :| 0 <= i < |s| && s[i] == ch;
    assert ColRef(ch.table, ch.column) in Removes(s[i]) && ColRef(ch.table, ch.newName) in Creates(s[i]);
  }

  lemma SideAddOf(ctx: Deployment, k: ColRef)
    requires SideRenamed(ctx, k)
    ensures Creating(Bucketed(ctx, AddRelColumns), k)
  {
    hide Bucketed, Relates, SideDecision;
    var c, other :|
      && Relates(ctx, c, other, k.table) && k.table in ctx.db.tables
      && ((k.column == "master" && SideDecision(ctx, k.table, "master", c) == Some(Migrate)) ||
          (k.column == "detail" && SideDecision(ctx, k.table, "detail", other) == Some(Migrate)));
    SideAdded(ctx, c, other, k);
  }

  lemma SideRenaming(ctx: Deployment, c: ClassDef, other: ClassDef, k: ColRef)
    requires k.table in ctx.db.tables
    requires (k.column == "master" && SideDecision(ctx, k.table, "master", c) == Some(Migrate)) ||
             (k.column == "detail" && SideDecision(ctx, k.table, "detail", other) == Some(Migrate))
    ensures RenameColumn(k.table, k.column, Saved(ctx, k.column)) in RelationChanges(ctx, c, other, k.table, RenameRelColumns)
  {
    hide SideDecision;
    var ch := RenameColumn(k.table, k.column, Saved(ctx, k.column));
    assert ch in SideChanges(ctx, k.table, "master", c, RenameRelColumns) || ch in SideChanges(ctx, k.table, "detail", other, RenameRelColumns);
  }

  lemma SideAdded(ctx: Deployment, c: ClassDef, other: ClassDef, k: ColRef)
    requires Relates(ctx, c, other, k.table) && k.table in ctx.db.tables
    requires (k.column == "master" && SideDecision(ctx, k.table, "master", c) == Some(Migrate)) ||
             (k.column == "detail" && SideDecision(ctx, k.table, "detail", other) == Some(Migrate))
    ensures Creating(Bucketed(ctx, AddRelColumns), k)
  {
    hide Bucketed, Relates, KeyProperty;
    var r := k.table;
    var m, d := SideAdds(ctx, r, "master", c), SideAdds(ctx, r, "detail", other);
    var cols := m + d;
    var col := if k.column == "master" then m[0] else d[0];
    assert col in cols;
    NameOfColumn(cols, k.column);
    var ch := AddColumns(r, cols);
    IntoRelation(ctx, AddRelColumns, c, other, r, ch);
    var b := Bucketed(ctx, AddRelColumns);
    var i :| 0 <= i < |b| && b[i] == ch;
    assert k in Creates(b[i]);
  }

  lemma AddRelShape(ctx: Deployment, ch: Change) returns (c: ClassDef, other: ClassDef)
    requires ch in Bucketed(ctx, AddRelColumns)
    ensures ch.AddColumns? && Relates(ctx, c, other, ch.table) && ch.table in ctx.db.tables
    ensures ch.newColumns == SideAdds(ctx, ch.table, "master", c) + SideAdds(ctx, ch.table, "detail", other)
    ensures forall k | k in Creates(ch) :: SideRenamed(ctx, k)
  {
    hide Bucketed, Relates, KeyProperty;
    var r;
    c, other, r := FromRelation(ctx, AddRelColumns, ch);
    forall k | k in Creates(ch) ensures SideRenamed(ctx, k) {
      NameOfColumn(ch.newColumns, k.column);
      var col :| col in ch.newColumns && col.name == k.column;
      assert col in SideAdds(ctx, r, "master", c) || col in SideAdds(ctx, r, "detail", other);
    }
  }

  lemma SidesExact(ctx: Deployment, k: ColRef)
    ensures Removing(Bucketed(ctx, RenameRelColumns), k) <==> SideRenamed(ctx, k)
    ensures Creating(Bucketed(ctx, RenameRelColumns), k) <==> exists k0 :: SideRenamed(ctx, k0) && k == SavedRef(ctx, k0)
    ensures Creating(Bucketed(ctx, AddRelColumns), k) <==> SideRenamed(ctx, k)
  {
    hide Bucketed, SideRenamed, Relates, SideAdds;
    var b, d := Bucketed(ctx, RenameRelColumns), Bucketed(ctx, AddRelColumns);
    if Removing(b, k) {
      var i :| 0 <= i < |b| && k in Removes(b[i]);
      SideShape(ctx, b[i]);
    }
    if Creating(b, k) {
      var i :| 0 <= i < |b| && k in Creates(b[i]);
      SideShape(ctx, b[i]);
      assert k == SavedRef(ctx, ColRef(b[i].table, b[i].column));
    }
    if Creating(d, k) {
      var i :| 0 <= i < |d| && k in Creates(d[i]);
      var c, other := AddRelShape(ctx, d[i]);
    }
    if SideRenamed(ctx, k) {
      SideRenameOf(ctx, k);
      SideAddOf(ctx, k);
    }
    if exists k0 :: SideRenamed(ctx, k0) && k == SavedRef(ctx, k0) {
      var k0 :| SideRenamed(ctx, k0) && k == SavedRef(ctx, k0);
      SideRenameOf(ctx, k0);
    }
  }

  lemma RelTablesShape(ctx: Deployment, ch: Change) returns (c: ClassDef, other: ClassDef)
    requires ch in Bucketed(ctx, CreateRelTables)
    ensures Relates(ctx, c, other, ch.table) && ch.table !in ctx.db.tables
    ensures ch == CreateTable(ch.table, SideColumn(ctx, "master", c) + SideColumn(ctx, "detail", other))
  {
    hide Bucketed, Relates, KeyProperty, SideColumn, Resets;
    var r;
    c, other, r := FromRelation(ctx, CreateRelTables, ch);
  }

  lemma RelColumnsExact(ctx: Deployment, k: ColRef)
    requires ValidModel(ctx)
    ensures Creating(Bucketed(ctx, CreateRelTables), k) <==> NewRelationColumn(ctx, k)
  {
    hide Bucketed, Relates, KeyProperty, ValidModel;
    var b := Bucketed(ctx, CreateRelTables);
    if Creating(b, k) {
      var i :| 0 <= i < |b| && k in Creates(b[i]);
      var c, other := RelTablesShape(ctx, b[i]);
      NameOfColumn(b[i].newColumns, k.column);
    }
    if NewRelationColumn(ctx, k) {
      var c, other :| Relates(ctx, c, other, k.table);
      RelationColumnMade(ctx, c, other, k);
    }
  }

  lemma RelationColumnMade(ctx: Deployment, c: ClassDef, other: ClassDef, k: ColRef)
    requires ValidModel(ctx) && Relates(ctx, c, other, k.table) && k.table !in ctx.db.tables && (k.column == "master" || k.column == "detail")
    ensures Creating(Bucketed(ctx, CreateRelTables), k)
  {
    hide Bucketed, Relates, KeyProperty, ValidModel, Properties;
    RelatesClasses(ctx, c, other, k.table);
    ClassFacts(ctx, c);
    ClassFacts(ctx, other);
    var cols := SideColumn(ctx, "master", c) + SideColumn(ctx, "detail", other);
    assert cols[0].name == "master" && cols[1].name == "detail";
    assert k.column in Names(cols);
    var ch := CreateTable(k.table, cols);
    hide SideColumn;
    IntoRelation(ctx, CreateRelTables, c, other, k.table, ch);
    var b := Bucketed(ctx, CreateRelTables);
    var i :| 0 <= i < |b| && b[i] == ch;
    assert k in Creates(b[i]);
  }
}
