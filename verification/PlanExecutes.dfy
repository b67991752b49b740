/** The plan of every valid model runs through, change by change, exactly when the old
    schema can be deployed to: each change fits its stage and the changes of one part do not
    interfere, or else some change lacks a column. */
module PlanExecutes {
  import opened Wrappers
  import opened PropertyTypes
  import opened Database
  import opened Batches
  import opened DeployPlan
  import opened PlanShape
  import opened PlanColumns
  import opened PlanStages
  import opened PlanRuns
  import opened PlanKeys
  import opened PlanFits
  import opened PlanParts
  import opened ModelDeploying
  import Listing

  // The relation tables.

  lemma RelatesOnce(ctx: Deployment, c: ClassDef, other: ClassDef, d: ClassDef, other': ClassDef, r: string)
    requires ValidModel(ctx) && Relates(ctx, c, other, r) && Relates(ctx, d, other', r)
    ensures c == d && other == other'
  {
    hide Properties, PropertyNames, Resolvable, SuffixIsNew, WellFormed, KeyDeclaredOnce;
    var p :| IsProperty(ctx, c, p) && OwnsRelation(ctx, c, p) && r == Relation(ctx, c, p) && other == Find(ctx, p.itemsClass).value;
    var q :| IsProperty(ctx, d, q) && OwnsRelation(ctx, d, q) && r == Relation(ctx, d, q) && other' == Find(ctx, q.itemsClass).value;
    ClassFacts(ctx, c);
    ClassFacts(ctx, d);
    assert c.name == d.name && p.name == q.name;
    SameColumn(ctx, c, p, q);
  }

  /** The class part of the plan does not touch relation tables. */
  lemma RelationUntouched(ctx: Deployment, c: ClassDef, other: ClassDef, k: ColRef)
    requires ValidModel(ctx) && Relates(ctx, c, other, k.table)
    ensures AfterAdds(ctx, k) <==> k in ctx.db.columns
    ensures !IsClassTable(ctx, k.table)
  {
    hide ValidModel, Renamed, Relates, NewIn;
    RelationIsNoClassTable(ctx, c, other, k.table);
    if Renamed(ctx, k) {
      RenamedIsOld(ctx, k);
    }
    if RenamedTo(ctx, k) {
      var o :| Renamed(ctx, o) && k == SavedRef(ctx, o);
      RenamedIsOld(ctx, o);
    }
  }

  lemma DropRelFits(ctx: Deployment, ch: Change)
    requires ch in Bucketed(ctx, DropRelPK)
    ensures Fits(ctx, 12, ch)
  {
    hide Bucketed, Relates, Resets;
    var c, other, r := FromRelation(ctx, DropRelPK, ch);
  }

  lemma SideRenameFits(ctx: Deployment, ch: Change)
    requires ValidModel(ctx) && ch in Bucketed(ctx, RenameRelColumns)
    ensures Fits(ctx, 13, ch)
  {
    hide Bucketed, Relates, ValidModel, AfterAdds, SideDecision;
    SideShape(ctx, ch);
    var k := ColRef(ch.table, ch.column);
    SideRenamedIsOld(ctx, k);
    SavedIsNew(ctx, k);
    var c, other :| Relates(ctx, c, other, k.table);
    RelationUntouched(ctx, c, other, k);
    RelationUntouched(ctx, c, other, SavedRef(ctx, k));
    assert Creates(ch) == {SavedRef(ctx, k)} && Needs(ch) == {k};
  }

  lemma SideNotRenamed(ctx: Deployment, c: ClassDef, other: ClassDef, k: ColRef)
    requires ValidModel(ctx) && Relates(ctx, c, other, k.table) && SideRenamed(ctx, k)
    ensures SideDecision(ctx, k.table, k.column, if k.column == "master" then c else other) == Some(Migrate)
  {
    hide Relates, ValidModel, SideDecision;
    var d, other' :|
      && Relates(ctx, d, other', k.table) && k.table in ctx.db.tables
      && ((k.column == "master" && SideDecision(ctx, k.table, "master", d) == Some(Migrate)) ||
          (k.column == "detail" && SideDecision(ctx, k.table, "detail", other') == Some(Migrate)));
    RelatesOnce(ctx, c, other, d, other', k.table);
  }

  lemma SideEnlargeFits(ctx: Deployment, ch: Change)
    requires ValidModel(ctx) && ch in Bucketed(ctx, ModifyRelTypes)
    ensures Fits(ctx, 14, ch)
  {
    hide Bucketed, Relates, ValidModel, AfterAdds, KeyProperty, SideRenamed;
    var c, other, r := FromRelation(ctx, ModifyRelTypes, ch);
    var k := ColRef(ch.table, ch.column);
    assert SideDecision(ctx, r, k.column, if k.column == "master" then c else other) == Some(Widen) && k.table == r;
    RelationUntouched(ctx, c, other, k);
    if SideRenamed(ctx, k) {
      SideNotRenamed(ctx, c, other, k);
    }
    assert Needs(ch) == {k};
  }

  lemma NewRelationFits(ctx: Deployment, ch: Change)
    requires ValidModel(ctx) && ch in Bucketed(ctx, CreateRelTables)
    ensures Fits(ctx, 15, ch)
  {
    hide Bucketed, Relates, ValidModel, AfterAdds, KeyProperty, SideRenamed, IsClassTable;
    var c, other := RelTablesShape(ctx, ch);
    forall k | k in Creates(ch) ensures !HasColumn(ctx, 15, k) {
      RelationUntouched(ctx, c, other, k);
      assert k.table !in ctx.db.tables && WellFormed(ctx.db) by { NewTableHasNoColumns(ctx, k); }
      if SideRenamedTo(ctx, k) {
        var o :| SideRenamed(ctx, o) && k == SavedRef(ctx, o);
        SideRenamedIsOld(ctx, o);
      }
    }
    RelationUntouched(ctx, c, other, ColRef(ch.table, ""));
  }

  lemma NewTableHasNoColumns(ctx: Deployment, k: ColRef)
    requires ValidModel(ctx)
    ensures WellFormed(ctx.db) && (k.table !in ctx.db.tables ==> k !in ctx.db.columns)
  {
  }

  lemma SideAddFits(ctx: Deployment, ch: Change)
    requires ValidModel(ctx) && ch in Bucketed(ctx, AddRelColumns)
    ensures Fits(ctx, 16, ch)
  {
    hide Bucketed, Relates, ValidModel, AfterAdds, SideRenamed, SideDecision, KeyProperty;
    var c, other := AddRelShape(ctx, ch);
    forall k | k in Creates(ch) ensures !HasColumn(ctx, 16, k) {
      SideRenamedIsOld(ctx, k);
      NotRenamedTo(ctx, k.table, k.column);
    }
  }

  /** Both columns of a relation table whose primary key is made are there. */
  lemma SideThere(ctx: Deployment, c: ClassDef, other: ClassDef, r: string, side: string, i: nat)
    requires ValidModel(ctx) && RelationsReady(ctx) && Relates(ctx, c, other, r) && 17 <= i <= 20
    requires (r !in ctx.db.tables || Resets(ctx, r, c, other)) && side in {"master", "detail"}
    ensures HasColumn(ctx, i, ColRef(r, side)) && HasTable(ctx, i, r)
  {
    hide Relates, ValidModel, AfterAdds, SideRenamed, Resets;
    var k := ColRef(r, side);
    RelationUntouched(ctx, c, other, k);
  }

  lemma RelationKeyFits(ctx: Deployment, ch: Change)
    requires ValidModel(ctx) && RelationsReady(ctx) && ch in Bucketed(ctx, CreateRelPK)
    ensures Fits(ctx, 18, ch)
  {
    hide Bucketed, Relates, ValidModel, RelationsReady, HasColumn, HasTable, Resets;
    var c, other, r := FromRelation(ctx, CreateRelPK, ch);
    SideThere(ctx, c, other, r, "master", 18);
    SideThere(ctx, c, other, r, "detail", 18);
    assert Needs(ch) == {ColRef(r, "master"), ColRef(r, "detail")} by {
      assert ch == AddPrimaryKey(r, ["master", "detail"]);
      var cs := ["master", "detail"];
      forall k | k in Needs(ch) ensures k in {ColRef(r, "master"), ColRef(r, "detail")} {
        var j :| 0 <= j < 2 && k == ColRef(r, cs[j]);
      }
      assert ColRef(r, cs[0]) in Needs(ch) && ColRef(r, cs[1]) in Needs(ch);
    }
  }

  lemma SideKeyFits(ctx: Deployment, r: string, name: string, side: string, c: ClassDef, ch: Change, i: nat)
    requires ValidModel(ctx) && IsClass(ctx, c) && ch in SideKey(ctx, r, name, side, c) && 7 <= i <= 20
    requires HasColumn(ctx, i, ColRef(r, side)) && HasTable(ctx, i, r)
    ensures Fits(ctx, i, ch)
  {
    hide ValidModel, HasColumn, HasTable, KeyProperty, There;
    KeyThere(ctx, c);
    StaysThere(ctx, i, Table(ctx, c), ctx.settings.naming.column(KeyProperty(ctx, c).value.name));
  }

  lemma RelationLinkFits(ctx: Deployment, ch: Change)
    requires ValidModel(ctx) && RelationsReady(ctx) && ch in Bucketed(ctx, CreateRelFKs)
    ensures Fits(ctx, 19, ch)
  {
    hide Bucketed, Relates, ValidModel, RelationsReady, HasColumn, HasTable, Resets, SideKey, Fits;
    var c, other, r := FromRelation(ctx, CreateRelFKs, ch);
    SideThere(ctx, c, other, r, "master", 19);
    SideThere(ctx, c, other, r, "detail", 19);
    var m, d := LinkNames(ctx, c, other, r, ch);
    if ch in SideKey(ctx, r, m, "master", c) {
      SideKeyFits(ctx, r, m, "master", c, ch, 19);
    } else {
      SideKeyFits(ctx, r, d, "detail", other, ch, 19);
    }
  }

  lemma LinkNames(ctx: Deployment, c: ClassDef, other: ClassDef, r: string, ch: Change) returns (m: string, d: string)
    requires ch in RelationChanges(ctx, c, other, r, CreateRelFKs)
    ensures ch in SideKey(ctx, r, m, "master", c) || ch in SideKey(ctx, r, d, "detail", other)
  {
    hide SideKey, Resets;
    m := if r in ctx.db.tables then "fk_" + r + "_0" else ctx.settings.naming.foreignKey(r, "master");
    d := if r in ctx.db.tables then "fk_" + r + "_1" else ctx.settings.naming.foreignKey(r, "detail");
    assert ch in LinkSides(ctx, c, other, r, m, d);
  }

  /** Every change of every bucket but the dropped keys fits its stage, and a foreign key it
      adds is not there. */
  lemma BucketFits(ctx: Deployment, drops: seq<Change>, i: nat, ch: Change)
    requires ValidModel(ctx) && Deployable(ctx) && KeysReady(ctx, drops) && 1 <= i < 20 && ch in Bucketed(ctx, Emitted()[i])
    ensures Fits(ctx, i, ch) && forall k | k in AddsKey(ch) :: !HasKey(ctx, drops, i, k)
  {
    hide KeysReady, HasKey, AddsKey;
    MadeKeyIsNew(ctx, drops, i, ch);
    PartFits(ctx, i, ch);
  }

  lemma PartFits(ctx: Deployment, i: nat, ch: Change)
    requires ValidModel(ctx) && Deployable(ctx) && 1 <= i < 20 && ch in Bucketed(ctx, Emitted()[i])
    ensures Fits(ctx, i, ch)
  {
    hide ValidModel, Bucketed, Fits, DiscriminatorReady, RelationsReady, ReferencesReady;
    if i <= 2 {
      KeyChangesFit(ctx, Emitted()[i], ch);
    } else if i == 3 {
      RenameFits(ctx, ch);
    } else if i == 4 {
      EnlargeFits(ctx, ch);
    } else if i == 5 {
      NewTableFits(ctx, ch);
    } else if i == 6 {
      AddFits(ctx, ch);
    } else if i == 7 {
      DataFits(ctx, ch);
    } else if i == 8 {
      IndexFits(ctx, ch);
    } else if i == 9 {
      ForeignKeyFits(ctx, ch);
    } else if i == 11 {
      CreateKeyFits(ctx, ch);
    } else {
      RelationBucketFits(ctx, i, ch);
    }
  }

  lemma RelationBucketFits(ctx: Deployment, i: nat, ch: Change)
    requires ValidModel(ctx) && Deployable(ctx) && (i == 10 || 12 <= i < 20) && ch in Bucketed(ctx, Emitted()[i])
    ensures Fits(ctx, i, ch)
  {
    hide ValidModel, Bucketed, Fits, DiscriminatorReady, RelationsReady, ReferencesReady;
    BucketKind(ctx, Emitted()[i], ch);
    if i == 12 {
      DropRelFits(ctx, ch);
    } else if i == 13 {
      SideRenameFits(ctx, ch);
    } else if i == 14 {
      SideEnlargeFits(ctx, ch);
    } else if i == 15 {
      NewRelationFits(ctx, ch);
    } else if i == 16 {
      SideAddFits(ctx, ch);
    } else if i == 18 {
      RelationKeyFits(ctx, ch);
    } else if i == 19 {
      RelationLinkFits(ctx, ch);
    }
  }

  // The changes of one part do not get in each other's way.

  lemma RenamesApart(ctx: Deployment, x: Change, y: Change)
    requires x.RenameColumn? && y.RenameColumn? && x != y
    requires x.newName == Saved(ctx, x.column) && y.newName == Saved(ctx, y.column)
    ensures Compatible(x, y)
  {
    if x.newName == y.newName {
      assert x.newName[..|x.column|] == x.column && y.newName[..|y.column|] == y.column;
      assert |x.column| == |y.column|;
    }
  }

  lemma TablesApart(x: Change, y: Change)
    requires x.table != y.table && ((x.CreateTable? && y.CreateTable?) || (x.AddColumns? && y.AddColumns?))
    ensures Compatible(x, y)
  {
  }

  lemma MovesApart(ctx: Deployment, b: Bucket, x: Change, y: Change)
    requires ValidModel(ctx) && Moving(b) && x in Bucketed(ctx, b) && y in Bucketed(ctx, b) && x != y
    ensures Compatible(x, y)
  {
    hide ValidModel, Bucketed, Compatible, Relates, ClassColumns, Renamed, SideRenamed, SideAdds, SideColumn;
    if b == RenameColumns {
      RenamesShape(ctx, x);
      RenamesShape(ctx, y);
      RenamesApart(ctx, x, y);
    } else if b == RenameRelColumns {
      SideShape(ctx, x);
      SideShape(ctx, y);
      RenamesApart(ctx, x, y);
    } else if b == CreateTables {
      var c := TablesShape(ctx, x);
      var d := TablesShape(ctx, y);
      if x.table == y.table {
        SameTable(ctx, c, d);
      }
      TablesApart(x, y);
    } else if b == AddedColumns {
      var c := AddsShape(ctx, x);
      var d := AddsShape(ctx, y);
      if x.table == y.table {
        SameTable(ctx, c, d);
      }
      TablesApart(x, y);
    } else if b == CreateRelTables {
      var c, other := RelTablesShape(ctx, x);
      var d, other' := RelTablesShape(ctx, y);
      if x.table == y.table {
        RelatesOnce(ctx, c, other, d, other', x.table);
      }
      TablesApart(x, y);
    } else {
      var c, other := AddRelShape(ctx, x);
      var d, other' := AddRelShape(ctx, y);
      if x.table == y.table {
        RelatesOnce(ctx, c, other, d, other', x.table);
      }
      TablesApart(x, y);
    }
  }

  lemma StillApart(x: Change, y: Change, b: Bucket)
    requires !Moving(b) && OfKind(b, x) && OfKind(b, y) && AddsKey(x) !! AddsKey(y)
    ensures Compatible(x, y)
  {
  }

  lemma KeysOfPartApart(ctx: Deployment, parts: seq<seq<Change>>, i: nat, j: nat, l: nat)
    requires ValidModel(ctx) && Emission(ctx, parts) && 1 <= i < 20 && j < l < |parts[i]|
    ensures AddsKey(parts[i][j]) !! AddsKey(parts[i][l])
  {
    hide ValidModel, Bucketed, Emission;
    EmissionCount(ctx, parts);
    var b := Emitted()[i];
    if LinkBucket(b) {
      PartKeysApart(ctx, b);
      LinkPartIs(ctx, parts, i);
    } else {
      hide Emitted;
      PartIsBucket(ctx, parts, i, j);
      BucketKind(ctx, b, parts[i][j]);
    }
  }

  lemma LinkPartIs(ctx: Deployment, parts: seq<seq<Change>>, i: nat)
    requires Emission(ctx, parts) && 1 <= i < 20 && LinkBucket(Emitted()[i])
    ensures parts[i] == Bucketed(ctx, Emitted()[i])
  {
    hide BucketChanges;
  }

  lemma PartIndependent(ctx: Deployment, parts: seq<seq<Change>>, i: nat)
    requires ValidModel(ctx) && Emission(ctx, parts) && i < 20
    ensures Independent(parts[i])
  {
    hide ValidModel, Bucketed, Compatible, AddsKey;
    if i == 0 {
      DropsApart(ctx, parts[0]);
    } else {
      var b := Emitted()[i];
      PartMembers(ctx, parts, i);
      if Moving(b) {
        ChangesOnce(ctx, ctx.order, b);
        assert Bucketed(ctx, b) == BucketChanges(ctx, ctx.order, b) by { BucketedIs(ctx, b); }
        Listing.DistinctPermutes(Bucketed(ctx, b), parts[i]);
      }
      forall j, l | 0 <= j < l < |parts[i]| ensures Compatible(parts[i][j], parts[i][l]) {
        assert parts[i][j] in Bucketed(ctx, b) && parts[i][l] in Bucketed(ctx, b);
        if Moving(b) {
          MovesApart(ctx, b, parts[i][j], parts[i][l]);
        } else {
          BucketKind(ctx, b, parts[i][j]);
          BucketKind(ctx, b, parts[i][l]);
          KeysOfPartApart(ctx, parts, i, j, l);
          StillApart(parts[i][j], parts[i][l], b);
        }
      }
    }
  }

  lemma BucketedIs(ctx: Deployment, b: Bucket)
    ensures Bucketed(ctx, b) == BucketChanges(ctx, ctx.order, b)
  {
    hide BucketChanges;
  }

  lemma DropsApart(ctx: Deployment, s: seq<Change>)
    requires DropList(ctx, s)
    ensures Independent(s)
  {
  }

  lemma PartApplies(ctx: Deployment, parts: seq<seq<Change>>, i: nat, db: Schema)
    requires ValidModel(ctx) && Deployable(ctx) && Emission(ctx, parts) && i < 20 && KeysReady(ctx, parts[0])
    requires Reached(ctx, i, db) && KeysReached(ctx, parts[0], i, db)
    requires i == 0 ==> db == ctx.db
    ensures AllApply(db, parts[i])
  {
    hide ValidModel, Deployable, KeysReady, Bucketed, HasColumn, HasTable, HasKey, Fits, AddsKey, KeyNames;
    if i == 0 {
      DropsApply(ctx, parts[0], db);
    } else {
      PartMembers(ctx, parts, i);
      forall j | 0 <= j < |parts[i]| ensures CanApply(db, parts[i][j]) {
        assert parts[i][j] in Bucketed(ctx, Emitted()[i]);
        BucketFits(ctx, parts[0], i, parts[i][j]);
        FitsApply(ctx, i, db, parts[i][j]);
      }
    }
  }

  lemma DropsApply(ctx: Deployment, s: seq<Change>, db: Schema)
    requires DropList(ctx, s) && WellFormed(db) && db == ctx.db
    ensures AllApply(db, s)
  {
    forall j | 0 <= j < |s| ensures CanApply(db, s[j]) {
      assert DropsExisting(ctx, s[j]);
      var i :| 0 <= i < |db.keys| && db.keys[i].name == s[j].name && db.keys[i].table == s[j].table;
      assert (db.keys[i].table, db.keys[i].name) in KeyNames(db);
    }
  }

  // The whole plan.

  lemma FlattenNext(parts: seq<seq<Change>>, i: nat)
    requires i < |parts|
    ensures Flatten(parts[..i + 1]) == Flatten(parts[..i]) + parts[i]
  {
    assert parts[..i + 1][..i] == parts[..i];
  }

  lemma StartReached(ctx: Deployment)
    requires ValidModel(ctx)
    ensures Reached(ctx, 0, ctx.db)
  {
  }

  lemma StartKeys(ctx: Deployment, drops: seq<Change>)
    ensures KeysReached(ctx, drops, 0, ctx.db)
  {
  }

  /** The first i parts run through. */
  lemma {:induction false} PartsRun(ctx: Deployment, parts: seq<seq<Change>>, engine: Engine, i: nat)
    requires ValidModel(ctx) && Deployable(ctx) && Emission(ctx, parts) && i <= 20 && WellFormed(ctx.db)
    requires KeysReady(ctx, parts[0])
    ensures Run(engine, ctx.db, Flatten(parts[..i])).Some?
    ensures Reached(ctx, i, Run(engine, ctx.db, Flatten(parts[..i])).value)
    ensures KeysReached(ctx, parts[0], i, Run(engine, ctx.db, Flatten(parts[..i])).value)
    ensures i == 0 ==> Run(engine, ctx.db, Flatten(parts[..i])).value == ctx.db
  {
    hide ValidModel, Deployable, Bucketed, BucketChanges, DropList, HasColumn, HasTable, AllApply;
    hide Independent, KeysReady, KeysReached;
    if i == 0 {
      StartReached(ctx);
      StartKeys(ctx, parts[0]);
    } else {
      PartsRun(ctx, parts, engine, i - 1);
      var db := Run(engine, ctx.db, Flatten(parts[..i - 1])).value;
      FlattenNext(parts, i - 1);
      RunConcat(engine, ctx.db, Flatten(parts[..i - 1]), parts[i - 1]);
      PartApplies(ctx, parts, i - 1, db);
      PartIndependent(ctx, parts, i - 1);
      BatchRuns(engine, db, parts[i - 1]);
      StageStep(ctx, parts, i - 1, engine, db);
      KeyStep(ctx, parts, i - 1, engine, db);
    }
  }

  lemma {:induction false} PrefixRuns(db: Schema, parts: seq<seq<Change>>, engine: Engine, j: nat, i: nat)
    requires WellFormed(db) && j <= i <= |parts| && Run(engine, db, Flatten(parts[..i])).Some?
    ensures Run(engine, db, Flatten(parts[..j])).Some?
  {
    hide Run;
    if j < i {
      FlattenNext(parts, i - 1);
      RunConcat(engine, db, Flatten(parts[..i - 1]), parts[i - 1]);
      PrefixRuns(db, parts, engine, j, i - 1);
    }
  }

  /** The stages of a plan that runs through. */
  lemma {:induction false} PartsReached(ctx: Deployment, parts: seq<seq<Change>>, engine: Engine, i: nat)
    requires ValidModel(ctx) && Emission(ctx, parts) && i <= 20 && WellFormed(ctx.db)
    requires Run(engine, ctx.db, Flatten(parts[..i])).Some?
    ensures Reached(ctx, i, Run(engine, ctx.db, Flatten(parts[..i])).value)
    ensures KeysReached(ctx, parts[0], i, Run(engine, ctx.db, Flatten(parts[..i])).value)
  {
    hide ValidModel, Bucketed, BucketChanges, DropList, HasColumn, HasTable, KeysReached;
    if i == 0 {
      StartReached(ctx);
      StartKeys(ctx, parts[0]);
    } else {
      hide Run, Flatten;
      FlattenNext(parts, i - 1);
      PrefixRuns(ctx.db, parts, engine, i - 1, i);
      RunConcat(engine, ctx.db, Flatten(parts[..i - 1]), parts[i - 1]);
      PartsReached(ctx, parts, engine, i - 1);
      var db := Run(engine, ctx.db, Flatten(parts[..i - 1])).value;
      StageStep(ctx, parts, i - 1, engine, db);
      KeyStep(ctx, parts, i - 1, engine, db);
    }
  }

  // Necessity.

  /** What a change of a run needs was there before or is created on the way. */
  lemma {:induction false} NeedsMet(engine: Engine, db: Schema, plan: seq<Change>, ch: Change, k: ColRef)
    requires WellFormed(db) && Run(engine, db, plan).Some? && ch in plan && k in Needs(ch)
    ensures k in db.columns || Creating(plan, k)
    decreases |plan|
  {
    ApplyEffect(engine, db, plan[0]);
    if ch != plan[0] {
      var rest := plan[1..];
      assert plan == [plan[0]] + rest;
      NeedsMet(engine, Apply(engine, db, plan[0]), rest, ch, k);
      if Creating(rest, k) {
        var i :| 0 <= i < |rest| && k in Creates(rest[i]);
        assert k in Creates(plan[i + 1]);
      }
    }
  }

  lemma PartNeedsMet(ctx: Deployment, parts: seq<seq<Change>>, engine: Engine, i: nat, ch: Change, k: ColRef)
    requires ValidModel(ctx) && Emission(ctx, parts) && 1 <= i < 20 && WellFormed(ctx.db)
    requires Run(engine, ctx.db, Flatten(parts[..20])).Some?
    requires ch in Bucketed(ctx, Emitted()[i]) && !Moving(Emitted()[i]) && k in Needs(ch)
    ensures HasColumn(ctx, i, k)
  {
    hide ValidModel, Bucketed, BucketChanges, DropList, HasColumn, HasTable, Run, Flatten, Needs;
    PrefixRuns(ctx.db, parts, engine, i, 20);
    PrefixRuns(ctx.db, parts, engine, i + 1, 20);
    PartsReached(ctx, parts, engine, i);
    FlattenNext(parts, i);
    RunConcat(engine, ctx.db, Flatten(parts[..i]), parts[i]);
    PartMembers(ctx, parts, i);
    NeedsMet(engine, Run(engine, ctx.db, Flatten(parts[..i])).value, parts[i], ch, k);
    StillBucket(ctx, Emitted()[i], k, "");
    ByMember(parts[i], k);
    ByMember(Bucketed(ctx, Emitted()[i]), k);
  }

  /** A discriminator that migrates is copied into a column that is not there any more. */
  lemma DiscriminatorLost(ctx: Deployment, c: ClassDef) returns (ch: Change, k: ColRef)
    requires ValidModel(ctx) && IsClass(ctx, c) && IsRoot(ctx, c) && ctx.settings.useDiscriminator
    requires Migrates(ctx, c, DiscriminatorProperty(ctx.settings))
    ensures ch in Bucketed(ctx, DataMigrate) && k in Needs(ch) && !HasColumn(ctx, 7, k)
  {
    hide Properties, ValidModel, BucketChanges, AllCopies, Renamed, NewIn, KeyProperty;
    var d := DiscriminatorProperty(ctx.settings);
    DiscriminatorIn(ctx, c);
    var t, ps := Table(ctx, c), Properties(ctx, c);
    var cs := AllCopies(ctx, c, ps);
    assert |PropertyCopies(ctx, c, d)| == 1;
    var cp := PropertyCopies(ctx, c, d)[0];
    ToCopies(ctx, c, ps, d, cp);
    ch, k := CopyData(t, cs), ColRef(t, d.name);
    CopyChange(ctx, c, ps);
    ToBucket(ctx, ctx.order, DataMigrate, c, ch);
    var j :| 0 <= j < |cs| && cs[j] == cp;
    assert ColRef(t, cs[j].target) in Needs(ch);
    NotRenamedTo(ctx, t, d.name);
    RenamedRef(ctx, c, d);
    NothingNewIs(ctx, c, k);
  }

  /** A reference whose old key stays is looked up in a saved column that is not there. */
  lemma ReferenceLost(ctx: Deployment, c: ClassDef, pm: PropertyMeta) returns (ch: Change, k: ColRef)
    requires ValidModel(ctx) && IsProperty(ctx, c, pm) && Migrates(ctx, c, pm) && pm.kind == REFERENCE
    requires Followed(ctx, c, pm).Some? && !Renamed(ctx, FollowedRef(ctx, c, pm))
    ensures ch in Bucketed(ctx, DataMigrate) && k in Needs(ch) && !HasColumn(ctx, 7, k)
  {
    hide Properties, ValidModel, BucketChanges, AllCopies, Renamed, NewIn, KeyProperty, Followed, Deployed, AfterAdds;
    var t, ps := Table(ctx, c), Properties(ctx, c);
    var cs := AllCopies(ctx, c, ps);
    assert |PropertyCopies(ctx, c, pm)| == 1;
    var cp := PropertyCopies(ctx, c, pm)[0];
    ToCopies(ctx, c, ps, pm, cp);
    ch, k := CopyData(t, cs), SavedRef(ctx, FollowedRef(ctx, c, pm));
    MigratedTable(ctx, c, pm);
    CopyChange(ctx, c, ps);
    ToBucket(ctx, ctx.order, DataMigrate, c, ch);
    var j :| 0 <= j < |cs| && cs[j] == cp;
    assert k in Searched(cs[j]);
    FollowedIsOld(ctx, c, pm);
    SavedStaysAway(ctx, FollowedRef(ctx, c, pm));
  }

  lemma MigratedTable(ctx: Deployment, c: ClassDef, pm: PropertyMeta)
    requires Migrates(ctx, c, pm)
    ensures Table(ctx, c) in ctx.db.tables
  {
  }

  lemma {:induction false} FollowedFrom(keys: seq<ForeignKey>, t: string, column: string, refTable: string)
    requires FollowedKey(keys, t, column, refTable).Some?
    ensures exists i :: 0 <= i < |keys| && keys[i].refTable == refTable && keys[i].refColumn == FollowedKey(keys, t, column, refTable).value
  {
    if !(keys[0].table == t && keys[0].column == column) {
      FollowedFrom(keys[1..], t, column, refTable);
      var i :| 0 <= i < |keys[1..]| && keys[1..][i].refTable == refTable && keys[1..][i].refColumn == FollowedKey(keys, t, column, refTable).value;
      assert keys[i + 1] == keys[1..][i];
    } else {
      assert keys[0].refTable == refTable;
    }
  }

  lemma FollowedIsOld(ctx: Deployment, c: ClassDef, pm: PropertyMeta)
    requires ValidModel(ctx) && Followed(ctx, c, pm).Some?
    ensures FollowedRef(ctx, c, pm) in ctx.db.columns
  {
    hide FollowedKey, NamesApart, KeyNamesApart, OutsidersApart, SuffixIsNew, Resolvable, KeyDeclaredOnce, PropertyNames;
    var n := ctx.settings.naming;
    FollowedFrom(ctx.db.keys, Table(ctx, c), n.column(pm.name), n.table(pm.refClass));
  }

  /** A saved name is there only where the column has been renamed. */
  lemma SavedStaysAway(ctx: Deployment, o: ColRef)
    requires ValidModel(ctx) && o in ctx.db.columns && !Renamed(ctx, o)
    ensures !AfterAdds(ctx, SavedRef(ctx, o))
  {
    hide Properties, ValidModel, Renamed, KeyProperty, GetsColumn, NewName, PropertyNames;
    SavedIsNew(ctx, o);
    var k := SavedRef(ctx, o);
    if RenamedTo(ctx, k) {
      var x :| Renamed(ctx, x) && k == SavedRef(ctx, x);
      SameSaved(ctx, x.column, o.column);
    }
    forall d | IsClass(ctx, d) && k.table == Table(ctx, d) ensures !NewIn(ctx, d, k.column) {
      NoNewSaved(ctx, d, o);
    }
  }

  lemma SameSaved(ctx: Deployment, x: string, y: string)
    requires Saved(ctx, x) == Saved(ctx, y)
    ensures x == y
  {
    assert |x| == |y|;
    assert Saved(ctx, x)[..|x|] == x && Saved(ctx, y)[..|y|] == y;
  }

  lemma NoNewSaved(ctx: Deployment, d: ClassDef, o: ColRef)
    requires ValidModel(ctx) && IsClass(ctx, d) && o in ctx.db.columns
    ensures !NewIn(ctx, d, Saved(ctx, o.column))
  {
    hide Properties, ValidModel, KeyProperty, GetsColumn, GetsKeyColumn, PropertyNames, SituationOf;
    SavedIsNew(ctx, o);
    ClassFacts(ctx, d);
    forall p | p in Properties(ctx, d) ensures NewName(ctx, d, p) != Saved(ctx, o.column) {
      assert p.name in PropertyNames(ctx);
    }
  }

  lemma DiscriminatorIn(ctx: Deployment, c: ClassDef)
    requires ValidModel(ctx) && IsClass(ctx, c) && IsRoot(ctx, c) && ctx.settings.useDiscriminator
    ensures DiscriminatorProperty(ctx.settings) in Properties(ctx, c)
  {
    hide Properties;
    assert ResolvableClass(ctx, ctx.classes[c.name]);
    PropertiesFacts(ctx, c);
  }

  lemma CopyChange(ctx: Deployment, c: ClassDef, ps: seq<PropertyMeta>)
    requires AllCopies(ctx, c, ps) != [] && Table(ctx, c) in ctx.db.tables
    ensures CopyData(Table(ctx, c), AllCopies(ctx, c, ps)) in ClassChanges(ctx, c, ps, DataMigrate)
  {
    hide AllCopies, AllPropertyChanges;
  }

  /** No new column of the class is called like its migrated discriminator. */
  lemma NothingNewIs(ctx: Deployment, c: ClassDef, k: ColRef)
    requires ValidModel(ctx) && IsClass(ctx, c) && IsRoot(ctx, c) && ctx.settings.useDiscriminator
    requires Migrates(ctx, c, DiscriminatorProperty(ctx.settings)) && k == ColRef(Table(ctx, c), ctx.settings.discriminator)
    ensures !NewClassColumn(ctx, k, true) && !NewClassColumn(ctx, k, false)
  {
    hide Properties, ValidModel, KeyProperty, GetsColumn;
    forall d | IsClass(ctx, d) && k.table == Table(ctx, d)
      ensures !NewIn(ctx, d, k.column) {
      SameTable(ctx, c, d);
      forall pm | pm in Properties(ctx, c) ensures NewName(ctx, c, pm) != k.column {
        MigratedName(ctx, c, pm);
      }
      ColumnIsPrefixed(ctx);
    }
  }

  lemma ColumnIsPrefixed(ctx: Deployment)
    requires ValidModel(ctx)
    ensures forall n | n in PropertyNames(ctx) :: ctx.settings.naming.column(n) != ctx.settings.discriminator
  {
  }

  lemma MigratedName(ctx: Deployment, c: ClassDef, pm: PropertyMeta)
    requires ValidModel(ctx) && IsProperty(ctx, c, pm) && IsRoot(ctx, c) && ctx.settings.useDiscriminator
    requires Migrates(ctx, c, DiscriminatorProperty(ctx.settings))
    ensures NewName(ctx, c, pm) != ctx.settings.discriminator
  {
    hide Properties, SituationOf;
    ClassFacts(ctx, c);
  }

  /** A reset relation table that lacks a column lacks it when its primary key is made. */
  lemma SideLost(ctx: Deployment, c: ClassDef, other: ClassDef, r: string, side: string) returns (ch: Change)
    requires ValidModel(ctx) && Relates(ctx, c, other, r) && r in ctx.db.tables && Resets(ctx, r, c, other)
    requires side in {"master", "detail"} && ColRef(r, side) !in ctx.db.columns
    ensures ch in Bucketed(ctx, CreateRelPK) && ColRef(r, side) in Needs(ch) && !HasColumn(ctx, 18, ColRef(r, side))
  {
    hide Relates, ValidModel, Bucketed, Resets, AfterAdds, SideRenamed;
    var k := ColRef(r, side);
    ch := AddPrimaryKey(r, ["master", "detail"]);
    IntoRelation(ctx, CreateRelPK, c, other, r, ch);
    var cs := ["master", "detail"];
    assert ColRef(r, cs[0]) in Needs(ch) && ColRef(r, cs[1]) in Needs(ch);
    RelationUntouched(ctx, c, other, k);
    NotRenamedTo(ctx, r, side);
    if SideRenamed(ctx, k) {
      SideRenamedIsOld(ctx, k);
    }
  }

  /** A foreign key that is made anew while its namesake is there is refused. */
  lemma MustBeReady(ctx: Deployment, parts: seq<seq<Change>>, engine: Engine)
    requires ValidModel(ctx) && Emission(ctx, parts) && WellFormed(ctx.db)
    requires Run(engine, ctx.db, Flatten(parts[..20])).Some?
    ensures KeysReady(ctx, parts[0])
  {
    hide ValidModel, Emission, KeyNames, DroppingKey, ClassKeyMade, RelationKeyMade, Run, Flatten;
    EmissionCount(ctx, parts);
    forall k | ClassKeyMade(ctx, k) || RelationKeyMade(ctx, k) ensures k in KeyNames(ctx.db) ==> DroppingKey(parts[0], k) {
      if ClassKeyMade(ctx, k) {
        MadeWasAbsent(ctx, parts, engine, 9, k);
      } else {
        MadeWasAbsent(ctx, parts, engine, 19, k);
      }
    }
  }

  lemma MadeWasAbsent(ctx: Deployment, parts: seq<seq<Change>>, engine: Engine, i: nat, k: (string, string))
    requires ValidModel(ctx) && Emission(ctx, parts) && WellFormed(ctx.db)
    requires Run(engine, ctx.db, Flatten(parts[..20])).Some?
    requires (i == 9 && ClassKeyMade(ctx, k)) || (i == 19 && RelationKeyMade(ctx, k))
    ensures !HasKey(ctx, parts[0], i, k)
  {
    hide ValidModel, Emission, KeyNames, DroppingKey, ClassKeyMade, RelationKeyMade, HasKey, Run, Flatten, AddingKey;
    EmissionCount(ctx, parts);
    PrefixRuns(ctx.db, parts, engine, i, 20);
    PrefixRuns(ctx.db, parts, engine, i + 1, 20);
    PartsReached(ctx, parts, engine, i);
    FlattenNext(parts, i);
    RunConcat(engine, ctx.db, Flatten(parts[..i]), parts[i]);
    PartKeys(ctx, parts, i, k);
    AddedWasAbsent(engine, Run(engine, ctx.db, Flatten(parts[..i])).value, parts[i], k);
  }

  lemma ReferencesMustBeReady(ctx: Deployment, parts: seq<seq<Change>>, engine: Engine)
    requires ValidModel(ctx) && Emission(ctx, parts) && WellFormed(ctx.db)
    requires Run(engine, ctx.db, Flatten(parts[..20])).Some?
    ensures ReferencesReady(ctx)
  {
    hide ValidModel, Bucketed, BucketChanges, Emission, HasColumn, Migrates, Renamed, Followed, Needs, IsProperty, Run, Flatten;
    forall c, pm | IsProperty(ctx, c, pm) && Migrates(ctx, c, pm) && pm.kind == REFERENCE && Followed(ctx, c, pm).Some?
      ensures Renamed(ctx, FollowedRef(ctx, c, pm)) {
      if !Renamed(ctx, FollowedRef(ctx, c, pm)) {
        var ch, k := ReferenceLost(ctx, c, pm);
        PartNeedsMet(ctx, parts, engine, 7, ch, k);
      }
    }
  }

  lemma MustBeDeployable(ctx: Deployment, parts: seq<seq<Change>>, engine: Engine)
    requires ValidModel(ctx) && Emission(ctx, parts) && WellFormed(ctx.db)
    requires Run(engine, ctx.db, Flatten(parts[..20])).Some?
    ensures Deployable(ctx) && KeysReady(ctx, parts[0])
  {
    hide ValidModel, Bucketed, BucketChanges, Emission, HasColumn, Migrates, Resets, Relates, Needs, KeysReady, ReferencesReady;
    MustBeReady(ctx, parts, engine);
    forall c | IsClass(ctx, c) && IsRoot(ctx, c) && ctx.settings.useDiscriminator
      ensures !Migrates(ctx, c, DiscriminatorProperty(ctx.settings)) {
      if Migrates(ctx, c, DiscriminatorProperty(ctx.settings)) {
        var ch, k := DiscriminatorLost(ctx, c);
        PartNeedsMet(ctx, parts, engine, 7, ch, k);
      }
    }
    ReferencesMustBeReady(ctx, parts, engine);
    forall c, other, r | Relates(ctx, c, other, r) && r in ctx.db.tables && Resets(ctx, r, c, other)
      ensures ColRef(r, "master") in ctx.db.columns && ColRef(r, "detail") in ctx.db.columns {
      if ColRef(r, "master") !in ctx.db.columns {
        var ch := SideLost(ctx, c, other, r, "master");
        PartNeedsMet(ctx, parts, engine, 18, ch, ColRef(r, "master"));
      }
      if ColRef(r, "detail") !in ctx.db.columns {
        var ch := SideLost(ctx, c, other, r, "detail");
        PartNeedsMet(ctx, parts, engine, 18, ch, ColRef(r, "detail"));
      }
    }
  }

  /** The emitted plan of a valid model runs through, in its emitted order, if and only if
      the old schema can be deployed to and the drops free the names of all keys it makes. */
  lemma Executable(ctx: Deployment, parts: seq<seq<Change>>, engine: Engine)
    requires ValidModel(ctx) && Emission(ctx, parts)
    ensures WellFormed(ctx.db)
    ensures Run(engine, ctx.db, Flatten(parts)).Some? <==> Deployable(ctx) && KeysReady(ctx, parts[0])
  {
    hide Bucketed, BucketChanges, DropList, Deployable, KeysReady, Run, Flatten;
    assert parts[..20] == parts;
    if Deployable(ctx) && KeysReady(ctx, parts[0]) {
      PartsRun(ctx, parts, engine, 20);
    }
    if Run(engine, ctx.db, Flatten(parts)).Some? {
      MustBeDeployable(ctx, parts, engine);
    }
  }

  /** Where the existing foreign keys have different names, all three parts of the condition
      can be told from the model and the schema alone. */
  lemma ExecutableByNames(ctx: Deployment, parts: seq<seq<Change>>, engine: Engine)
    requires ValidModel(ctx) && Emission(ctx, parts) && DistinctKeyNames(ctx.db)
    ensures WellFormed(ctx.db)
    ensures Run(engine, ctx.db, Flatten(parts)).Some? <==> Deployable(ctx) && KeysFree(ctx)
  {
    hide ValidModel, DropList, DistinctKeyNames, Deployable, KeysReady, KeysFree, Run, Flatten;
    Executable(ctx, parts, engine);
    KeysReadyByName(ctx, parts[0]);
  }
}
