/** The planner is a fixpoint on its own output: planned again against the schema the first
    plan produced, a class table whose properties have types with a case of their own is
    left alone. Four ways lead to the column of a property, it was kept, enlarged, replaced
    or made anew, and on each the type it ends up with, as the database reports it, is one
    that the comparison keeps. */
module PlanFixpoint {
  import opened PropertyTypes
  import opened Database
  import opened Batches
  import opened DeployPlan
  import opened PlanShape
  import opened PlanColumns
  import opened PlanStages
  import opened PlanRuns
  import opened PlanFits
  import opened PlanParts
  import opened PlanExecutes
  import opened PlanData

  // Types through the parts of a plan.

  ghost predicate Retyped(ctx: Deployment, i: nat, k: ColRef) {
    || (i == 1 && exists c, pm :: IsProperty(ctx, c, pm) && Migrates(ctx, c, pm) && k == Ref(ctx, c, pm))
    || (i == 4 && exists c, pm :: IsProperty(ctx, c, pm) && Widens(ctx, c, pm) && k == Ref(ctx, c, pm))
    || (i == 14 && IsRelationTable(ctx, k.table))
  }

  lemma BucketRetypes(ctx: Deployment, i: nat, ch: Change, k: ColRef)
    requires 1 <= i < 20 && ch in Bucketed(ctx, Emitted()[i]) && k in Retypes(ch)
    ensures Retyped(ctx, i, k)
  {
    hide BucketChanges, Properties, SituationOf, Relates, IsKey;
    BucketKind(ctx, Emitted()[i], ch);
    if i == 14 {
      var c, other, r := FromRelation(ctx, ModifyRelTypes, ch);
      RelationKind(ctx, c, other, r, ModifyRelTypes, ch);
    } else {
      var c, pm := FromBucket(ctx, Emitted()[i], ch);
      assert k == Ref(ctx, c, pm);
    }
  }

  lemma PartRetypes(ctx: Deployment, parts: seq<seq<Change>>, i: nat, k: ColRef)
    requires Emission(ctx, parts) && i < 20 && Retyping(parts[i], k)
    ensures Retyped(ctx, i, k)
  {
    hide Bucketed, Retyped;
    var j :| 0 <= j < |parts[i]| && k in Retypes(parts[i][j]);
    if i > 0 {
      PartMembers(ctx, parts, i);
      BucketRetypes(ctx, i, parts[i][j], k);
    }
  }

  /** A column no part from i to j renames or retypes keeps its type. */
  lemma {:induction false} TypeKept(ctx: Deployment, parts: seq<seq<Change>>, engine: Engine, i: nat, j: nat, k: ColRef)
    requires Runs(ctx, parts, engine) && i <= j <= 20
    requires Run(engine, ctx.db, Flatten(parts[..i])).Some? && k in After(ctx, parts, engine, i).columns
    requires forall l | i <= l < j :: !Removing(parts[l], k) && !Retyping(parts[l], k)
    ensures Run(engine, ctx.db, Flatten(parts[..j])).Some?
    ensures k in After(ctx, parts, engine, j).columns
    ensures After(ctx, parts, engine, j).columns[k].info == After(ctx, parts, engine, i).columns[k].info
    decreases j - i
  {
    hide Runs, Run, Flatten, Reached, Removing, Retyping;
    PartCount(ctx, parts, engine);
    StageOf(ctx, parts, engine, i);
    if i < j {
      RunKeepsInfo(engine, After(ctx, parts, engine, i), parts[i], k);
      StageOf(ctx, parts, engine, i + 1);
      TypeKept(ctx, parts, engine, i + 1, j, k);
    }
  }

  /** The column of a property of a class is no side of a relation table. */
  lemma NotASide(ctx: Deployment, c: ClassDef, k: ColRef)
    requires ValidModel(ctx) && IsClass(ctx, c) && k.table == Table(ctx, c)
    ensures !IsRelationTable(ctx, k.table) && !SideRenamed(ctx, k)
  {
    hide ValidModel, Relates;
    ClassTableThere(ctx, 6, c);
    if IsRelationTable(ctx, k.table) {
      var d, other :| Relates(ctx, d, other, k.table);
      RelationIsNoClassTable(ctx, d, other, k.table);
    }
    if SideRenamed(ctx, k) {
      SideRenamedIsOld(ctx, k);
    }
  }

  /** The parts that may move or retype the column of a property. */
  lemma PropertyQuiet(ctx: Deployment, parts: seq<seq<Change>>, c: ClassDef, pm: PropertyMeta, l: nat)
    requires ValidModel(ctx) && Emission(ctx, parts) && IsProperty(ctx, c, pm) && l < 20
    ensures Removing(parts[l], Ref(ctx, c, pm)) ==> l == 3 && Migrates(ctx, c, pm)
    ensures Retyping(parts[l], Ref(ctx, c, pm)) ==> (l == 1 && Migrates(ctx, c, pm)) || (l == 4 && Widens(ctx, c, pm))
  {
    hide ValidModel, Emission, Properties, SituationOf, Removing, Retyping, IsRelationTable, SideRenamed;
    var k := Ref(ctx, c, pm);
    EmissionCount(ctx, parts);
    NotASide(ctx, c, k);
    if Removing(parts[l], k) {
      PartRemoves(ctx, parts, l, k);
      RenamedRef(ctx, c, pm);
    }
    if Retyping(parts[l], k) {
      PartRetypes(ctx, parts, l, k);
      var d, q :| IsProperty(ctx, d, q) && k == Ref(ctx, d, q) && (if l == 1 then Migrates(ctx, d, q) else Widens(ctx, d, q));
      SameTable(ctx, c, d);
      SameColumn(ctx, c, pm, q);
    }
  }

  /** The type a property's column has after the plan. */
  ghost predicate TypedAs(ctx: Deployment, parts: seq<seq<Change>>, engine: Engine, i: nat, k: ColRef, info: ColumnInfo)
    requires i <= |parts| && WellFormed(ctx.db)
  {
    && Run(engine, ctx.db, Flatten(parts[..i])).Some?
    && k in After(ctx, parts, engine, i).columns
    && After(ctx, parts, engine, i).columns[k].info == info
  }

  lemma TypeStays(ctx: Deployment, parts: seq<seq<Change>>, engine: Engine, c: ClassDef, pm: PropertyMeta, i: nat, j: nat, info: ColumnInfo)
    requires Runs(ctx, parts, engine) && IsProperty(ctx, c, pm) && i <= j <= 20 && |parts| == 20
    requires TypedAs(ctx, parts, engine, i, Ref(ctx, c, pm), info)
    requires Migrates(ctx, c, pm) ==> i >= 4
    requires Widens(ctx, c, pm) ==> i >= 5 || j <= 4
    ensures TypedAs(ctx, parts, engine, j, Ref(ctx, c, pm), info)
  {
    hide ValidModel, Emission, Properties, SituationOf, Removing, Retyping, Run, Flatten;
    forall l | i <= l < j ensures !Removing(parts[l], Ref(ctx, c, pm)) && !Retyping(parts[l], Ref(ctx, c, pm)) {
      PropertyQuiet(ctx, parts, c, pm, l);
    }
    TypeKept(ctx, parts, engine, i, j, Ref(ctx, c, pm));
  }

  /** A kept column. */
  lemma KeptType(ctx: Deployment, parts: seq<seq<Change>>, engine: Engine, c: ClassDef, pm: PropertyMeta)
    requires Runs(ctx, parts, engine) && IsProperty(ctx, c, pm) && |parts| == 20
    requires SituationOf(ctx, c, pm).Present? && SituationOf(ctx, c, pm).decision == Keep
    ensures TypedAs(ctx, parts, engine, 20, Ref(ctx, c, pm), SituationOf(ctx, c, pm).info)
  {
    hide ValidModel, Emission, Properties, Run, Flatten;
    assert parts[..0] == [];
    StartIs(ctx, engine);
    TypeStays(ctx, parts, engine, c, pm, 0, 20, SituationOf(ctx, c, pm).info);
  }

  /** A column enlarged in place. */
  lemma EnlargedType(ctx: Deployment, parts: seq<seq<Change>>, engine: Engine, c: ClassDef, pm: PropertyMeta)
    requires Runs(ctx, parts, engine) && IsProperty(ctx, c, pm) && |parts| == 20 && Widens(ctx, c, pm)
    ensures TypedAs(ctx, parts, engine, 20, Ref(ctx, c, pm), engine.realise(ctx.settings.rules.deployedType(Deployed(ctx, pm))))
  {
    hide ValidModel, Emission, Properties, Run, Flatten, Deployed, Retyping, SituationOf;
    var k := Ref(ctx, c, pm);
    var ty := ctx.settings.rules.deployedType(Deployed(ctx, pm));
    var ch := ModifyDataType(k.table, k.column, ty);
    EnlargementEmitted(ctx, parts, c, pm);
    StageOf(ctx, parts, engine, 4);
    PropertyQuiet(ctx, parts, c, pm, 4);
    RunRetypes(engine, After(ctx, parts, engine, 4), parts[4], ch);
    TypeStays(ctx, parts, engine, c, pm, 5, 20, engine.realise(ty));
  }

  lemma EnlargementEmitted(ctx: Deployment, parts: seq<seq<Change>>, c: ClassDef, pm: PropertyMeta)
    requires ValidModel(ctx) && Emission(ctx, parts) && IsProperty(ctx, c, pm) && Widens(ctx, c, pm) && |parts| == 20
    ensures var ch := ModifyDataType(Table(ctx, c), ColumnName(ctx, pm), ctx.settings.rules.deployedType(Deployed(ctx, pm)));
            ch in parts[4] && forall x | x in parts[4] && Ref(ctx, c, pm) in Retypes(x) :: x == ch
  {
    hide ValidModel, Properties, BucketChanges, Deployed, SituationOf;
    var ch := ModifyDataType(Table(ctx, c), ColumnName(ctx, pm), ctx.settings.rules.deployedType(Deployed(ctx, pm)));
    IntoBucket(ctx, ModifyTypes, c, pm, ch);
    PartMembers(ctx, parts, 4);
    forall x | x in parts[4] && Ref(ctx, c, pm) in Retypes(x) ensures x == ch {
      OneEnlargement(ctx, c, pm, x);
    }
  }

  lemma OneEnlargement(ctx: Deployment, c: ClassDef, pm: PropertyMeta, x: Change)
    requires ValidModel(ctx) && IsProperty(ctx, c, pm) && x in Bucketed(ctx, ModifyTypes) && Ref(ctx, c, pm) in Retypes(x)
    ensures x == ModifyDataType(Table(ctx, c), ColumnName(ctx, pm), ctx.settings.rules.deployedType(Deployed(ctx, pm)))
  {
    hide ValidModel, BucketChanges, Properties, SituationOf, Deployed;
    var d, q := FromBucket(ctx, ModifyTypes, x);
    SameTable(ctx, c, d);
    SameColumn(ctx, c, pm, q);
  }

  /** A column the plan creates. */
  lemma CreatedType(ctx: Deployment, parts: seq<seq<Change>>, engine: Engine, c: ClassDef, pm: PropertyMeta)
    requires Runs(ctx, parts, engine) && IsProperty(ctx, c, pm) && |parts| == 20 && GetsColumn(ctx, c, pm)
    ensures TypedAs(ctx, parts, engine, 20, Ref(ctx, c, pm), engine.realise(ctx.settings.rules.deployedType(Deployed(ctx, pm))))
  {
    hide ValidModel, Emission, Properties, Run, Flatten, BucketChanges, Deployed, Retyping, NewName;
    hide ClassColumns, DiscriminatorReady, RelationsReady;
    assert parts[..20] == parts;
    MustBeDeployable(ctx, parts, engine);
    NewNameIsLookedUp(ctx, c, pm);
    var i := if Table(ctx, c) in ctx.db.tables then 6 else 5;
    var ch, m := ColumnMade(ctx, parts, c, pm);
    StageOf(ctx, parts, engine, i);
    PropertyQuiet(ctx, parts, c, pm, i);
    RunMakes(engine, After(ctx, parts, engine, i), parts[i], ch, m);
    GetsColumnDecision(ctx, c, pm);
    TypeStays(ctx, parts, engine, c, pm, i + 1, 20, engine.realise(ctx.settings.rules.deployedType(Deployed(ctx, pm))));
  }

  lemma GetsColumnDecision(ctx: Deployment, c: ClassDef, pm: PropertyMeta)
    requires GetsColumn(ctx, c, pm)
    ensures !Widens(ctx, c, pm)
  {
  }

  lemma ColumnMade(ctx: Deployment, parts: seq<seq<Change>>, c: ClassDef, pm: PropertyMeta) returns (ch: Change, m: nat)
    requires ValidModel(ctx) && Emission(ctx, parts) && IsProperty(ctx, c, pm) && GetsColumn(ctx, c, pm)
    ensures |parts| == 20 && ch in parts[if Table(ctx, c) in ctx.db.tables then 6 else 5]
    ensures (ch.CreateTable? || ch.AddColumns?) && ch.table == Table(ctx, c) && m < |ch.newColumns|
    ensures ch.newColumns[m] == NewColumnOf(ctx, pm, NewName(ctx, c, pm))
  {
    hide ValidModel, Properties, BucketChanges, ClassChanges, GetsColumn, KeyColumns, NewColumnOf, NewName;
    var t, ps := Table(ctx, c), Properties(ctx, c);
    ToColumns(ctx, c, ps, pm);
    var col, cols := NewColumnOf(ctx, pm, NewName(ctx, c, pm)), ClassColumns(ctx, c);
    assert col in cols;
    TableChange(ctx, c);
    if t in ctx.db.tables {
      ch := AddColumns(t, cols);
      ToBucket(ctx, ctx.order, AddedColumns, c, ch);
      PartMembers(ctx, parts, 6);
    } else {
      ch := CreateTable(t, cols);
      ToBucket(ctx, ctx.order, CreateTables, c, ch);
      PartMembers(ctx, parts, 5);
    }
    m :| m < |cols| && cols[m] == col;
  }

  /** After the plan the column of a property is one the planner would leave alone. */
  lemma ColumnSettled(ctx: Deployment, parts: seq<seq<Change>>, engine: Engine, defaultLength: int, c: ClassDef, pm: PropertyMeta)
    requires Runs(ctx, parts, engine) && ctx.settings.rules == StandardRules(defaultLength) && Faithful(engine.realise)
    requires IsProperty(ctx, c, pm) && pm.kind != COLLECTION && HasOwnCase(Deployed(ctx, pm).kind)
    ensures var r, k := Run(engine, ctx.db, Flatten(parts)).value, Ref(ctx, c, pm);
            k in r.columns && Decide(pm, Deployed(ctx, pm), r.columns[k].info, defaultLength) == Keep
  {
    hide ValidModel, Emission, Properties, Run, Flatten, Faithful, Decide, KeyProperty, DeployedType;
    EmissionCount(ctx, parts);
    assert parts[..20] == parts;
    DeployedColumnIsKept(pm, Deployed(ctx, pm), engine.realise, defaultLength);
    SubclassKeyIsNotDeclared(ctx, c, pm);
    if GetsColumn(ctx, c, pm) {
      CreatedType(ctx, parts, engine, c, pm);
    } else if Widens(ctx, c, pm) {
      EnlargedType(ctx, parts, engine, c, pm);
    } else {
      KeptType(ctx, parts, engine, c, pm);
    }
  }

  lemma SubclassKeyIsNotDeclared(ctx: Deployment, c: ClassDef, pm: PropertyMeta)
    requires ValidModel(ctx) && IsProperty(ctx, c, pm)
    ensures !RepeatsKey(ctx, c, pm)
  {
    hide Properties;
    ClassFacts(ctx, c);
  }

  // Planning again.

  /** The same model against the schema the first plan produced, under another change log id. */
  ghost function Again(ctx: Deployment, db: Schema, changeLogId: string): (r: Context)
    ensures WellFounded(r)
  {
    var r := ctx.(db := db, settings := ctx.settings.(changeLogId := changeLogId));
    assert forall n | n in ctx.classes :: Grounded(ctx, n) ==> Grounded(r, n);
    r
  }

  lemma {:induction false} SameRoot(ctx: Deployment, next: Deployment, c: ClassDef)
    requires next.classes == ctx.classes && next.depth == ctx.depth
    ensures Root(next, c) == Root(ctx, c) && IsRoot(next, c) == IsRoot(ctx, c)
    decreases if c.ancestor in ctx.classes then ctx.depth[c.ancestor] + 1 else 0
  {
    if c.ancestor in ctx.classes {
      assert Grounded(ctx, c.ancestor);
      SameRoot(ctx, next, ctx.classes[c.ancestor]);
    }
  }

  lemma SameModel(ctx: Deployment, next: Deployment, c: ClassDef, pm: PropertyMeta)
    requires next.classes == ctx.classes && next.depth == ctx.depth && next.place == ctx.place && next.settings == ctx.settings.(changeLogId := next.settings.changeLogId)
    ensures KeyProperty(next, c) == KeyProperty(ctx, c) && Table(next, c) == Table(ctx, c)
    ensures Properties(next, c) == Properties(ctx, c) && Deployed(next, pm) == Deployed(ctx, pm)
    ensures Ref(next, c, pm) == Ref(ctx, c, pm) && IsRoot(next, c) == IsRoot(ctx, c)
  {
    SameRoot(ctx, next, c);
    if pm.kind == REFERENCE && pm.refClass in ctx.classes {
      SameRoot(ctx, next, ctx.classes[pm.refClass]);
    }
  }

  /** Nothing is planned for the class-table column of this property. */
  ghost predicate LeftAlone(ctx: Deployment, c: ClassDef, pm: PropertyMeta) {
    && (forall b | !RelationBucket(b) :: PropertyChanges(ctx, c, pm, b) == [])
    && PropertyColumns(ctx, c, pm) == [] && PropertyCopies(ctx, c, pm) == []
    && !DropsExportedKeys(ctx, c, pm)
  }

  lemma KeepLeavesAlone(ctx: Deployment, c: ClassDef, pm: PropertyMeta)
    requires var s := SituationOf(ctx, c, pm); (s.Present? && s.decision == Keep && pm.kind != COLLECTION) || (s.Absent? && pm.kind == COLLECTION)
    ensures LeftAlone(ctx, c, pm)
  {
    forall b | !RelationBucket(b) ensures PropertyChanges(ctx, c, pm, b) == [] {
      hide SituationOf, IsKey;
      if RelationPart(ctx, c, pm, b) != [] {
        RelationKind(ctx, c, Find(ctx, pm.itemsClass).value, Relation(ctx, c, pm), b, RelationPart(ctx, c, pm, b)[0]);
      }
    }
  }

  /** A collection has no column in the new schema. */
  lemma CollectionAbsent(ctx: Deployment, defaultLength: int, c: ClassDef, pm: PropertyMeta)
    requires ValidModel(ctx) && DiscriminatorReady(ctx) && ctx.settings.rules == StandardRules(defaultLength)
    requires IsProperty(ctx, c, pm) && pm.kind == COLLECTION
    ensures !HasColumn(ctx, 20, Ref(ctx, c, pm))
  {
    hide ValidModel, Properties, Renamed, NewName, SideRenamed, Relates, DiscriminatorReady;
    var k := Ref(ctx, c, pm);
    CollectionMigrates(ctx, defaultLength, c, pm);
    NotASide(ctx, c, k);
    RenamedRef(ctx, c, pm);
    OwnNameNotRenamedTo(ctx, c, pm, k.table);
    forall d | IsClass(ctx, d) && k.table == Table(ctx, d) ensures !NewIn(ctx, d, k.column) {
      SameTable(ctx, c, d);
      forall q | q in Properties(ctx, c) && GetsColumn(ctx, c, q) ensures NewName(ctx, c, q) != k.column {
        NewNameIsLookedUp(ctx, c, q);
        if ColumnName(ctx, q) == k.column {
          SameColumn(ctx, c, pm, q);
        }
      }
      CollectionIsNoKey(ctx, c, pm);
    }
  }

  lemma CollectionMigrates(ctx: Deployment, defaultLength: int, c: ClassDef, pm: PropertyMeta)
    requires ValidModel(ctx) && ctx.settings.rules == StandardRules(defaultLength) && pm.kind == COLLECTION
    ensures Ref(ctx, c, pm) in ctx.db.columns ==> Migrates(ctx, c, pm)
  {
    var k := Ref(ctx, c, pm);
    if k in ctx.db.columns {
      assert k.table in ctx.db.tables;
      assert Decide(pm, Deployed(ctx, pm), ctx.db.columns[k].info, defaultLength) == Migrate;
      WideningDecision(ctx, defaultLength, c, pm);
    }
  }

  lemma CollectionIsNoKey(ctx: Deployment, c: ClassDef, pm: PropertyMeta)
    requires ValidModel(ctx) && IsProperty(ctx, c, pm) && pm.kind == COLLECTION
    ensures GetsKeyColumn(ctx, c) ==> ColumnName(ctx, pm) != ctx.settings.naming.column(KeyProperty(ctx, c).value.name)
  {
    hide Properties;
    ClassFacts(ctx, c);
  }

  /** Every property of the class, collections aside, is stored with a type that has a case of its own. */
  ghost predicate Explicit(ctx: Deployment, c: ClassDef) {
    forall pm | pm in Properties(ctx, c) && pm.kind != COLLECTION :: HasOwnCase(Deployed(ctx, pm).kind)
  }

  /** The second plan leaves an explicitly typed property alone. */
  lemma PropertySettled(ctx: Deployment, parts: seq<seq<Change>>, engine: Engine, defaultLength: int, c: ClassDef, pm: PropertyMeta, next: Deployment)
    requires Runs(ctx, parts, engine) && ctx.settings.rules == StandardRules(defaultLength) && Faithful(engine.realise)
    requires next.classes == ctx.classes && next.depth == ctx.depth && next.place == ctx.place && next.settings == ctx.settings.(changeLogId := next.settings.changeLogId)
    requires next.db == Run(engine, ctx.db, Flatten(parts)).value
    requires IsProperty(ctx, c, pm) && (pm.kind == COLLECTION || HasOwnCase(Deployed(ctx, pm).kind))
    ensures LeftAlone(next, c, pm)
  {
    hide ValidModel, Emission, Properties, Run, Flatten, Faithful, Decide, HasColumn, DiscriminatorReady;
    hide RelationsReady, LeftAlone, Deployed;
    EmissionCount(ctx, parts);
    assert parts[..20] == parts;
    StageOf(ctx, parts, engine, 20);
    SameModel(ctx, next, c, pm);
    ClassTableThere(ctx, 20, c);
    var k := Ref(ctx, c, pm);
    assert Table(next, c) in next.db.tables;
    if pm.kind == COLLECTION {
      MustBeDeployable(ctx, parts, engine);
      CollectionAbsent(ctx, defaultLength, c, pm);
      assert SituationOf(next, c, pm).Absent?;
    } else {
      ColumnSettled(ctx, parts, engine, defaultLength, c, pm);
      WideningDecision(next, defaultLength, c, pm);
      assert SituationOf(next, c, pm).Present? && SituationOf(next, c, pm).decision == Keep;
    }
    KeepLeavesAlone(next, c, pm);
  }

  lemma {:induction false} AloneTogether(ctx: Deployment, c: ClassDef, ps: seq<PropertyMeta>, b: Bucket)
    requires !RelationBucket(b) && forall pm | pm in ps :: LeftAlone(ctx, c, pm)
    ensures AllColumns(ctx, c, ps) == [] && AllCopies(ctx, c, ps) == [] && AllPropertyChanges(ctx, c, ps, b) == []
  {
    hide PropertyChanges, PropertyColumns, PropertyCopies;
    if ps != [] {
      assert LeftAlone(ctx, c, ps[|ps| - 1]);
      AloneTogether(ctx, c, ps[..|ps| - 1], b);
    }
  }

  /** The key column of every class table is there for the second plan. */
  lemma KeySettled(ctx: Deployment, parts: seq<seq<Change>>, engine: Engine, c: ClassDef, next: Deployment)
    requires Runs(ctx, parts, engine) && IsClass(ctx, c)
    requires next.classes == ctx.classes && next.depth == ctx.depth && next.place == ctx.place && next.settings == ctx.settings.(changeLogId := next.settings.changeLogId)
    requires next.db == Run(engine, ctx.db, Flatten(parts)).value
    ensures !GetsKeyColumn(next, c) && Table(next, c) in next.db.tables
  {
    hide ValidModel, Emission, Properties, Run, Flatten, HasColumn, There, KeyProperty;
    EmissionCount(ctx, parts);
    assert parts[..20] == parts;
    StageOf(ctx, parts, engine, 20);
    KeyThere(ctx, c);
    SameModel(ctx, next, c, KeyProperty(ctx, c).value);
    StaysThere(ctx, 20, Table(ctx, c), ctx.settings.naming.column(KeyProperty(ctx, c).value.name));
  }

  /** Planning again emits nothing for an explicitly typed class table. */
  lemma Fixpoint(ctx: Deployment, parts: seq<seq<Change>>, engine: Engine, defaultLength: int, c: ClassDef, changeLogId: string, b: Bucket)
    requires Runs(ctx, parts, engine) && ctx.settings.rules == StandardRules(defaultLength) && Faithful(engine.realise)
    requires IsClass(ctx, c) && Explicit(ctx, c) && !RelationBucket(b)
    ensures var next := Again(ctx, Run(engine, ctx.db, Flatten(parts)).value, changeLogId);
            ClassChanges(next, c, Properties(next, c), b) == []
  {
    hide ValidModel, Emission, Properties, Run, Flatten, Faithful, LeftAlone, Deployed, PropertyChanges, KeyProperty;
    var next: Deployment := Again(ctx, Run(engine, ctx.db, Flatten(parts)).value, changeLogId);
    var ps := Properties(next, c);
    forall pm | pm in ps ensures LeftAlone(next, c, pm) {
      SameModel(ctx, next, c, pm);
      PropertySettled(ctx, parts, engine, defaultLength, c, pm, next);
    }
    AloneTogether(next, c, ps, b);
    if b == CreateFKs || b == DataMigrate {
      AloneTogether(next, c, ps, b);
    }
    KeySettled(ctx, parts, engine, c, next);
  }
}
