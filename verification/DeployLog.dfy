/** The stream of change sets as the planner puts them out, class after class and property
    after property, and what each bucket selects from it. The stream is described by the
    same steps as the planner's methods take, the selection by what classes and properties
    contribute; the lemmas lead from the one to the other, bucket by bucket. */
module DeployLog {
  import opened PropertyTypes
  import opened Database
  import opened DeployPlan

  /** The changes put into buckets so far, latest outermost. */
  datatype Log = Start | Put(before: Log, bucket: Bucket, change: Change)

  /** The contents of a bucket after the entries of a log. */
  function Select(log: Log, b: Bucket): seq<Change> {
    match log
    case Start => []
    case Put(before, bucket, change) => if bucket == b then Select(before, b) + [change] else Select(before, b)
  }

  function PutIf(some: bool, log: Log, b: Bucket, ch: Change): Log {
    if some then Put(log, b, ch) else log
  }

  function PutAll(log: Log, b: Bucket, cs: seq<Change>): Log {
    if cs == [] then log else Put(PutAll(log, b, cs[..|cs| - 1]), b, cs[|cs| - 1])
  }

  function LogSide(ctx: Deployment, relation: string, side: string, c: ClassDef, log: Log): Log {
    match SideDecision(ctx, relation, side, c)
    case Some(Migrate) => Put(log, RenameRelColumns, RenameColumn(relation, side, Saved(ctx, side)))
    case Some(Widen) => Put(log, ModifyRelTypes, ModifyDataType(relation, side, ctx.settings.rules.deployedType(KeyProperty(ctx, c).value)))
    case _ => log
  }

  function LogSideKey(ctx: Deployment, relation: string, name: string, side: string, c: ClassDef, log: Log): Log {
    if KeyProperty(ctx, c).None? then log
    else Put(log, CreateRelFKs, AddForeignKey(name, relation, side, Table(ctx, c), ctx.settings.naming.column(KeyProperty(ctx, c).value.name)))
  }

  function LogNewRelation(ctx: Deployment, c: ClassDef, other: ClassDef, r: string, log: Log): Log {
    var fk := ctx.settings.naming.foreignKey;
    var keys :=
      if ctx.settings.referentialIntegrity then
        LogSideKey(ctx, r, fk(r, "detail"), "detail", other, LogSideKey(ctx, r, fk(r, "master"), "master", c, log))
      else log;
    var tables := Put(keys, CreateRelTables, CreateTable(r, SideColumn(ctx, "master", c) + SideColumn(ctx, "detail", other)));
    Put(tables, CreateRelPK, AddPrimaryKey(r, ["master", "detail"]))
  }

  function LogReset(ctx: Deployment, c: ClassDef, other: ClassDef, r: string, log: Log): Log {
    var drop := Put(log, DropRelPK, DropPrimaryKey(r));
    var keys := LogSideKey(ctx, r, "fk_" + r + "_1", "detail", other, LogSideKey(ctx, r, "fk_" + r + "_0", "master", c, drop));
    Put(keys, CreateRelPK, AddPrimaryKey(r, ["master", "detail"]))
  }

  function LogExistingRelation(ctx: Deployment, c: ClassDef, other: ClassDef, r: string, log: Log): Log {
    hide RelationChanges, LogReset, LogSide, SideAdds;
    var cols := SideAdds(ctx, r, "master", c) + SideAdds(ctx, r, "detail", other);
    var sides := LogSide(ctx, r, "detail", other, LogSide(ctx, r, "master", c, log));
    var adds := PutIf(cols != [], sides, AddRelColumns, AddColumns(r, cols));
    if Resets(ctx, r, c, other) then LogReset(ctx, c, other, r, adds) else adds
  }

  function LogRelation(ctx: Deployment, c: ClassDef, other: ClassDef, r: string, log: Log): Log {
    if r in ctx.db.tables then LogExistingRelation(ctx, c, other, r, log) else LogNewRelation(ctx, c, other, r, log)
  }

  function LogCollection(ctx: Deployment, c: ClassDef, pm: PropertyMeta, log: Log): Log {
    if OwnsRelation(ctx, c, pm) then LogRelation(ctx, c, Find(ctx, pm.itemsClass).value, Relation(ctx, c, pm), log) else log
  }

  function LogKey(ctx: Deployment, c: ClassDef, pm: PropertyMeta, log: Log): Log {
    var t, name, s := Table(ctx, c), ColumnName(ctx, pm), SituationOf(ctx, c, pm);
    if Migrates(ctx, c, pm) && IsKey(ctx, c, pm.name) then
      Put(Put(Put(log, DropPK, DropPrimaryKey(t)), CreatePK, AddPrimaryKey(t, [ctx.settings.naming.column(pm.name)])),
          CleanPK, ModifyDataType(t, name, ctx.settings.rules.currentType(s.info)))
    else log
  }

  function LogData(ctx: Deployment, c: ClassDef, pm: PropertyMeta, log: Log): Log {
    var t, name, s := Table(ctx, c), ColumnName(ctx, pm), SituationOf(ctx, c, pm);
    if Widens(ctx, c, pm) then
      Put(log, ModifyTypes, ModifyDataType(t, name, ctx.settings.rules.deployedType(Deployed(ctx, pm))))
    else if s.Absent? && pm.kind != COLLECTION && IsDiscriminator(ctx, c, pm) then
      Put(log, DataMigrate, BackfillOf(ctx, c, pm))
    else if GetsColumn(ctx, c, pm) && !s.Absent? && pm.indexed && !pm.unique then
      Put(log, AddIndices, CreateIndex(t, ctx.settings.naming.index(c.name, pm.name), ctx.settings.naming.column(pm.name)))
    else log
  }

  /** What one property puts into the buckets while the properties are walked. */
  function LogProperty(ctx: Deployment, c: ClassDef, pm: PropertyMeta, log: Log): Log {
    LogCollection(ctx, c, pm, LogData(ctx, c, pm, LogKey(ctx, c, pm, log)))
  }

  function LogProperties(ctx: Deployment, c: ClassDef, ps: seq<PropertyMeta>, log: Log): Log {
    if ps == [] then log else LogProperty(ctx, c, ps[|ps| - 1], LogProperties(ctx, c, ps[..|ps| - 1], log))
  }

  function LogExistingClass(ctx: Deployment, c: ClassDef, ps: seq<PropertyMeta>, log: Log): Log {
    var t := Table(ctx, c);
    var cols := AllColumns(ctx, c, ps) + KeyColumns(ctx, c);
    var copies := AllCopies(ctx, c, ps);
    var adds := PutIf(cols != [], LogProperties(ctx, c, ps, log), AddedColumns, AddColumns(t, cols));
    var renames := PutAll(adds, RenameColumns, AllPropertyChanges(ctx, c, ps, RenameColumns));
    var data := PutIf(copies != [], renames, DataMigrate, CopyData(t, copies));
    PutAll(data, CreateFKs, AllPropertyChanges(ctx, c, ps, CreateFKs) + KeyForeignKeys(ctx, c))
  }

  function LogNewClass(ctx: Deployment, c: ClassDef, ps: seq<PropertyMeta>, log: Log): Log {
    var t := Table(ctx, c);
    var tables := Put(LogProperties(ctx, c, ps, log), CreateTables, CreateTable(t, KeyColumns(ctx, c) + AllColumns(ctx, c, ps)));
    PutAll(tables, CreateFKs, KeyForeignKeys(ctx, c) + AllPropertyChanges(ctx, c, ps, CreateFKs))
  }

  function LogClass(ctx: Deployment, c: ClassDef, ps: seq<PropertyMeta>, log: Log): Log {
    if Table(ctx, c) in ctx.db.tables then LogExistingClass(ctx, c, ps, log) else LogNewClass(ctx, c, ps, log)
  }

  function LogClasses(ctx: Deployment, names: seq<string>): Log
    requires forall n | n in names :: n in ctx.classes
  {
    if names == [] then Start
    else
      var c := ctx.classes[names[|names| - 1]];
      LogClass(ctx, c, Properties(ctx, c), LogClasses(ctx, names[..|names| - 1]))
  }

  lemma {:induction false} SelectAll(log: Log, x: Bucket, cs: seq<Change>, b: Bucket)
    ensures Select(PutAll(log, x, cs), b) == Select(log, b) + if x == b then cs else []
  {
    if cs != [] {
      SelectAll(log, x, cs[..|cs| - 1], b);
      assert cs == cs[..|cs| - 1] + [cs[|cs| - 1]];
    }
  }

  lemma SelectSide(ctx: Deployment, relation: string, side: string, c: ClassDef, log: Log, b: Bucket)
    ensures Select(LogSide(ctx, relation, side, c, log), b) == Select(log, b) + SideChanges(ctx, relation, side, c, b)
  {
  }

  lemma SelectSideKey(ctx: Deployment, relation: string, name: string, side: string, c: ClassDef, log: Log, b: Bucket)
    ensures Select(LogSideKey(ctx, relation, name, side, c, log), b) ==
              Select(log, b) + if b == CreateRelFKs then SideKey(ctx, relation, name, side, c) else []
  {
  }

  lemma SelectNewRelation(ctx: Deployment, c: ClassDef, other: ClassDef, r: string, log: Log, b: Bucket)
    requires r !in ctx.db.tables
    ensures Select(LogNewRelation(ctx, c, other, r, log), b) == Select(log, b) + RelationChanges(ctx, c, other, r, b)
  {
    var fk := ctx.settings.naming.foreignKey;
    SelectSideKey(ctx, r, fk(r, "master"), "master", c, log, b);
    SelectSideKey(ctx, r, fk(r, "detail"), "detail", other, LogSideKey(ctx, r, fk(r, "master"), "master", c, log), b);
  }

  lemma SelectReset(ctx: Deployment, c: ClassDef, other: ClassDef, r: string, log: Log, b: Bucket)
    requires r in ctx.db.tables && Resets(ctx, r, c, other)
    ensures Select(LogReset(ctx, c, other, r, log), b) ==
              Select(log, b) + if b in {DropRelPK, CreateRelFKs, CreateRelPK} then RelationChanges(ctx, c, other, r, b) else []
  {
    var drop := Put(log, DropRelPK, DropPrimaryKey(r));
    SelectSideKey(ctx, r, "fk_" + r + "_0", "master", c, drop, b);
    SelectSideKey(ctx, r, "fk_" + r + "_1", "detail", other, LogSideKey(ctx, r, "fk_" + r + "_0", "master", c, drop), b);
  }

  lemma SelectSides(ctx: Deployment, c: ClassDef, other: ClassDef, r: string, log: Log, b: Bucket)
    requires r in ctx.db.tables
    ensures Select(LogSide(ctx, r, "detail", other, LogSide(ctx, r, "master", c, log)), b) ==
              Select(log, b) + if b == RenameRelColumns || b == ModifyRelTypes then RelationChanges(ctx, c, other, r, b) else []
  {
    SelectSide(ctx, r, "master", c, log, b);
    SelectSide(ctx, r, "detail", other, LogSide(ctx, r, "master", c, log), b);
  }

  lemma SelectAdds(ctx: Deployment, c: ClassDef, other: ClassDef, r: string, log: Log, b: Bucket)
    requires r in ctx.db.tables
    ensures var cols := SideAdds(ctx, r, "master", c) + SideAdds(ctx, r, "detail", other);
            Select(PutIf(cols != [], log, AddRelColumns, AddColumns(r, cols)), b) ==
              Select(log, b) + if b == AddRelColumns then RelationChanges(ctx, c, other, r, b) else []
  {
  }

  /** The buckets an existing relation table contributes to. */
  lemma RelationBuckets(ctx: Deployment, c: ClassDef, other: ClassDef, r: string, b: Bucket)
    requires r in ctx.db.tables
    ensures b !in {RenameRelColumns, ModifyRelTypes, AddRelColumns, DropRelPK, CreateRelFKs, CreateRelPK} ==> RelationChanges(ctx, c, other, r, b) == []
    ensures b in {DropRelPK, CreateRelFKs, CreateRelPK} && !Resets(ctx, r, c, other) ==> RelationChanges(ctx, c, other, r, b) == []
  {
  }

  lemma SelectExistingRelation(ctx: Deployment, c: ClassDef, other: ClassDef, r: string, log: Log, b: Bucket)
    requires r in ctx.db.tables
    ensures Select(LogExistingRelation(ctx, c, other, r, log), b) == Select(log, b) + RelationChanges(ctx, c, other, r, b)
  {
    hide RelationChanges, LogReset, LogSide, SideAdds;
    var cols := SideAdds(ctx, r, "master", c) + SideAdds(ctx, r, "detail", other);
    var sides := LogSide(ctx, r, "detail", other, LogSide(ctx, r, "master", c, log));
    SelectSides(ctx, c, other, r, log, b);
    SelectAdds(ctx, c, other, r, sides, b);
    RelationBuckets(ctx, c, other, r, b);
    if Resets(ctx, r, c, other) {
      SelectReset(ctx, c, other, r, PutIf(cols != [], sides, AddRelColumns, AddColumns(r, cols)), b);
    }
  }

  lemma SelectCollection(ctx: Deployment, c: ClassDef, pm: PropertyMeta, log: Log, b: Bucket)
    ensures Select(LogCollection(ctx, c, pm, log), b) == Select(log, b) + RelationPart(ctx, c, pm, b)
  {
    if OwnsRelation(ctx, c, pm) {
      var other, r := Find(ctx, pm.itemsClass).value, Relation(ctx, c, pm);
      if r in ctx.db.tables {
        SelectExistingRelation(ctx, c, other, r, log, b);
      } else {
        SelectNewRelation(ctx, c, other, r, log, b);
      }
    }
  }

  lemma SelectKey(ctx: Deployment, c: ClassDef, pm: PropertyMeta, log: Log, b: Bucket)
    ensures Select(LogKey(ctx, c, pm, log), b) ==
              Select(log, b) + if b in {DropPK, CreatePK, CleanPK} then PropertyChanges(ctx, c, pm, b) else []
  {
    if Migrates(ctx, c, pm) && IsKey(ctx, c, pm.name) {
      var d := Put(log, DropPK, DropPrimaryKey(Table(ctx, c)));
      var k := Put(d, CreatePK, AddPrimaryKey(Table(ctx, c), [ctx.settings.naming.column(pm.name)]));
      assert Select(d, b) == Select(log, b) + if b == DropPK then PropertyChanges(ctx, c, pm, b) else [];
      assert Select(k, b) == Select(d, b) + if b == CreatePK then PropertyChanges(ctx, c, pm, b) else [];
    }
  }

  lemma SelectData(ctx: Deployment, c: ClassDef, pm: PropertyMeta, log: Log, b: Bucket)
    ensures Select(LogData(ctx, c, pm, log), b) ==
              Select(log, b) + if b in {ModifyTypes, DataMigrate, AddIndices} then PropertyChanges(ctx, c, pm, b) else []
  {
  }

  /** The class-table buckets get nothing from relation tables, and the others nothing else. */
  lemma OwnBuckets(ctx: Deployment, c: ClassDef, pm: PropertyMeta, b: Bucket)
    ensures b in {DropPK, CreatePK, CleanPK, ModifyTypes, DataMigrate, AddIndices, RenameColumns, CreateFKs} ==> RelationPart(ctx, c, pm, b) == []
    ensures b !in {DropPK, CreatePK, CleanPK, ModifyTypes, DataMigrate, AddIndices, RenameColumns, CreateFKs} ==>
              PropertyChanges(ctx, c, pm, b) == RelationPart(ctx, c, pm, b)
  {
  }

  /** The buckets a property reaches while the properties are walked. */
  predicate InLoop(b: Bucket) {
    b != RenameColumns && b != CreateFKs
  }

  lemma SelectProperty(ctx: Deployment, c: ClassDef, pm: PropertyMeta, log: Log, b: Bucket)
    ensures Select(LogProperty(ctx, c, pm, log), b) == Select(log, b) + if InLoop(b) then PropertyChanges(ctx, c, pm, b) else []
  {
    hide LogKey, LogData, LogCollection, PropertyChanges, RelationPart, Select;
    SelectKey(ctx, c, pm, log, b);
    SelectData(ctx, c, pm, LogKey(ctx, c, pm, log), b);
    SelectCollection(ctx, c, pm, LogData(ctx, c, pm, LogKey(ctx, c, pm, log)), b);
    OwnBuckets(ctx, c, pm, b);
  }

  lemma {:induction false} SelectProperties(ctx: Deployment, c: ClassDef, ps: seq<PropertyMeta>, log: Log, b: Bucket)
    ensures Select(LogProperties(ctx, c, ps, log), b) == Select(log, b) + if InLoop(b) then AllPropertyChanges(ctx, c, ps, b) else []
  {
    hide PropertyChanges, LogProperty, InLoop;
    if ps != [] {
      SelectProperties(ctx, c, ps[..|ps| - 1], log, b);
      SelectProperty(ctx, c, ps[|ps| - 1], LogProperties(ctx, c, ps[..|ps| - 1], log), b);
    }
  }

  /** A property adds nothing to these buckets by itself. */
  lemma {:induction false} NoDirectColumns(ctx: Deployment, c: ClassDef, ps: seq<PropertyMeta>, b: Bucket)
    requires b in {CreateTables, AddedColumns, Final}
    ensures AllPropertyChanges(ctx, c, ps, b) == []
  {
    if ps != [] {
      NoDirectColumns(ctx, c, ps[..|ps| - 1], b);
    }
  }

  lemma {:induction false} FreshTableKeepsNothing(ctx: Deployment, c: ClassDef, ps: seq<PropertyMeta>)
    requires Table(ctx, c) !in ctx.db.tables
    ensures AllPropertyChanges(ctx, c, ps, RenameColumns) == []
  {
    if ps != [] {
      FreshTableKeepsNothing(ctx, c, ps[..|ps| - 1]);
    }
  }

  lemma SelectTail(log: Log, add: bool, a: Change, renames: seq<Change>, copy: bool, d: Change, fks: seq<Change>, b: Bucket)
    ensures Select(PutAll(PutIf(copy, PutAll(PutIf(add, log, AddedColumns, a), RenameColumns, renames), DataMigrate, d), CreateFKs, fks), b) ==
              Select(log, b) + (if b == AddedColumns then OneIf(add, a) else if b == RenameColumns then renames
                                else if b == DataMigrate then OneIf(copy, d) else if b == CreateFKs then fks else [])
  {
    var adds := PutIf(add, log, AddedColumns, a);
    SelectAll(adds, RenameColumns, renames, b);
    SelectAll(PutIf(copy, PutAll(adds, RenameColumns, renames), DataMigrate, d), CreateFKs, fks, b);
  }

  /** Bucket b of an existing class, from the contents p its properties put there. */
  lemma ExistingClassBuckets(ctx: Deployment, c: ClassDef, ps: seq<PropertyMeta>, b: Bucket)
    requires Table(ctx, c) in ctx.db.tables
    ensures var t, cols, copies := Table(ctx, c), AllColumns(ctx, c, ps) + KeyColumns(ctx, c), AllCopies(ctx, c, ps);
            ClassChanges(ctx, c, ps, b) ==
              if b == CreateTables then []
              else if b == AddedColumns then OneIf(cols != [], AddColumns(t, cols))
              else if b == DataMigrate then AllPropertyChanges(ctx, c, ps, b) + OneIf(copies != [], CopyData(t, copies))
              else if b == CreateFKs then AllPropertyChanges(ctx, c, ps, b) + KeyForeignKeys(ctx, c)
              else AllPropertyChanges(ctx, c, ps, b)
  {
  }

  /** The tail of a class log applied to what the walk over the properties left. */
  lemma ExistingTail(before: seq<Change>, all: seq<Change>, b: Bucket, add: bool, a: Change, renames: seq<Change>,
                     copy: bool, d: Change, fks: seq<Change>, keys: seq<Change>)
    requires b in {CreateTables, AddedColumns} ==> all == []
    requires b == RenameColumns ==> all == renames
    requires b == CreateFKs ==> all == fks
    ensures (before + if InLoop(b) then all else []) +
              (if b == AddedColumns then OneIf(add, a) else if b == RenameColumns then renames
               else if b == DataMigrate then OneIf(copy, d) else if b == CreateFKs then fks + keys else []) ==
            before + (if b == CreateTables then []
                      else if b == AddedColumns then OneIf(add, a)
                      else if b == DataMigrate then all + OneIf(copy, d)
                      else if b == CreateFKs then all + keys
                      else all)
  {
  }

  lemma SelectExistingClass(ctx: Deployment, c: ClassDef, ps: seq<PropertyMeta>, log: Log, b: Bucket)
    requires Table(ctx, c) in ctx.db.tables
    ensures Select(LogExistingClass(ctx, c, ps, log), b) == Select(log, b) + ClassChanges(ctx, c, ps, b)
  {
    hide PropertyChanges, AllColumns, AllCopies, KeyColumns, KeyForeignKeys, AllPropertyChanges, LogProperties, ClassChanges, Select, InLoop;
    var t := Table(ctx, c);
    var cols, copies := AllColumns(ctx, c, ps) + KeyColumns(ctx, c), AllCopies(ctx, c, ps);
    var renames, fks, keys := AllPropertyChanges(ctx, c, ps, RenameColumns), AllPropertyChanges(ctx, c, ps, CreateFKs), KeyForeignKeys(ctx, c);
    SelectProperties(ctx, c, ps, log, b);
    SelectTail(LogProperties(ctx, c, ps, log), cols != [], AddColumns(t, cols), renames, copies != [], CopyData(t, copies), fks + keys, b);
    if b in {CreateTables, AddedColumns} {
      NoDirectColumns(ctx, c, ps, b);
    }
    ExistingTail(Select(log, b), AllPropertyChanges(ctx, c, ps, b), b, cols != [], AddColumns(t, cols), renames, copies != [], CopyData(t, copies), fks, keys);
    ExistingClassBuckets(ctx, c, ps, b);
  }

  lemma SelectNewTail(log: Log, t: Change, fks: seq<Change>, b: Bucket)
    ensures Select(PutAll(Put(log, CreateTables, t), CreateFKs, fks), b) ==
              Select(log, b) + (if b == CreateTables then [t] else if b == CreateFKs then fks else [])
  {
    SelectAll(Put(log, CreateTables, t), CreateFKs, fks, b);
  }

  /** Bucket b of a new class. */
  lemma NewClassBuckets(ctx: Deployment, c: ClassDef, ps: seq<PropertyMeta>, b: Bucket)
    requires Table(ctx, c) !in ctx.db.tables
    ensures ClassChanges(ctx, c, ps, b) ==
              if b == CreateTables then [CreateTable(Table(ctx, c), KeyColumns(ctx, c) + AllColumns(ctx, c, ps))]
              else if b == AddedColumns then []
              else if b == CreateFKs then KeyForeignKeys(ctx, c) + AllPropertyChanges(ctx, c, ps, b)
              else AllPropertyChanges(ctx, c, ps, b)
  {
    hide PropertyChanges, AllColumns, KeyColumns, KeyForeignKeys, AllPropertyChanges;
  }

  /** The tail of the log of a new class applied to what the walk over the properties left. */
  lemma NewTail(before: seq<Change>, all: seq<Change>, b: Bucket, t: Change, fks: seq<Change>)
    requires b in {CreateTables, AddedColumns, RenameColumns} ==> all == []
    ensures (before + if InLoop(b) then all else []) + (if b == CreateTables then [t] else if b == CreateFKs then fks else []) ==
            before + (if b == CreateTables then [t] else if b == AddedColumns then [] else if b == CreateFKs then fks else all)
  {
  }

  lemma SelectNewClass(ctx: Deployment, c: ClassDef, ps: seq<PropertyMeta>, log: Log, b: Bucket)
    requires Table(ctx, c) !in ctx.db.tables
    ensures Select(LogNewClass(ctx, c, ps, log), b) == Select(log, b) + ClassChanges(ctx, c, ps, b)
  {
    hide PropertyChanges, AllColumns, KeyColumns, KeyForeignKeys, AllPropertyChanges, LogProperties, ClassChanges, Select, InLoop;
    var all, t := AllPropertyChanges(ctx, c, ps, b), CreateTable(Table(ctx, c), KeyColumns(ctx, c) + AllColumns(ctx, c, ps));
    var fks := KeyForeignKeys(ctx, c) + AllPropertyChanges(ctx, c, ps, CreateFKs);
    NewClassBuckets(ctx, c, ps, b);
    SelectProperties(ctx, c, ps, log, b);
    SelectNewTail(LogProperties(ctx, c, ps, log), t, fks, b);
    if b in {CreateTables, AddedColumns} {
      NoDirectColumns(ctx, c, ps, b);
    }
    if b == RenameColumns {
      FreshTableKeepsNothing(ctx, c, ps);
    }
    NewTail(Select(log, b), all, b, t, fks);
  }

  /** Whatever the order of filling, each bucket holds its part of the plan. */
  lemma {:induction false} SelectTotal(ctx: Deployment, names: seq<string>, b: Bucket)
    requires forall n | n in names :: n in ctx.classes
    ensures Select(LogClasses(ctx, names), b) == BucketChanges(ctx, names, b)
  {
    if names != [] {
      var front, c := names[..|names| - 1], ctx.classes[names[|names| - 1]];
      SelectTotal(ctx, front, b);
      if Table(ctx, c) in ctx.db.tables {
        SelectExistingClass(ctx, c, Properties(ctx, c), LogClasses(ctx, front), b);
      } else {
        SelectNewClass(ctx, c, Properties(ctx, c), LogClasses(ctx, front), b);
      }
    }
  }
}
