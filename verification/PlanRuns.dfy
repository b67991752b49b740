/** Which tables and columns are there before each part of a plan, and what the changes of
    each part are. The stages are described outright, by the old schema and the model, and
    not by running anything: whatever part runs through then leads from one stage to the
    next, whatever its order, because what it removes and what it creates are known exactly. */
module PlanRuns {
  import opened Database
  import opened Batches
  import opened DeployPlan
  import opened PlanShape
  import opened PlanColumns
  import opened PlanStages
  import Listing

  ghost predicate RenamedTo(ctx: Deployment, k: ColRef) {
    exists o :: Renamed(ctx, o) && k == SavedRef(ctx, o)
  }

  ghost predicate SideRenamedTo(ctx: Deployment, k: ColRef) {
    exists o :: SideRenamed(ctx, o) && k == SavedRef(ctx, o)
  }

  ghost predicate AfterRenames(ctx: Deployment, k: ColRef) {
    (k in ctx.db.columns && !Renamed(ctx, k)) || RenamedTo(ctx, k)
  }

  ghost predicate AfterAdds(ctx: Deployment, k: ColRef) {
    AfterRenames(ctx, k) || NewClassColumn(ctx, k, false) || NewClassColumn(ctx, k, true)
  }

  ghost predicate AfterSideRenames(ctx: Deployment, k: ColRef) {
    (AfterAdds(ctx, k) && !SideRenamed(ctx, k)) || SideRenamedTo(ctx, k)
  }

  /** The columns before the i-th part of the plan. */
  ghost predicate HasColumn(ctx: Deployment, i: nat, k: ColRef) {
    if i <= 3 then k in ctx.db.columns
    else if i <= 5 then AfterRenames(ctx, k)
    else if i == 6 then AfterRenames(ctx, k) || NewClassColumn(ctx, k, false)
    else if i <= 13 then AfterAdds(ctx, k)
    else if i <= 15 then AfterSideRenames(ctx, k)
    else if i == 16 then AfterSideRenames(ctx, k) || NewRelationColumn(ctx, k)
    else AfterSideRenames(ctx, k) || NewRelationColumn(ctx, k) || SideRenamed(ctx, k)
  }

  ghost predicate IsClassTable(ctx: Deployment, t: string) {
    exists c :: IsClass(ctx, c) && t == Table(ctx, c)
  }

  ghost predicate IsRelationTable(ctx: Deployment, t: string) {
    exists c, other :: Relates(ctx, c, other, t)
  }

  /** The tables before the i-th part of the plan. */
  ghost predicate HasTable(ctx: Deployment, i: nat, t: string) {
    || t in ctx.db.tables
    || (i >= 6 && IsClassTable(ctx, t))
    || (i >= 16 && IsRelationTable(ctx, t))
  }

  ghost predicate Reached(ctx: Deployment, i: nat, db: Schema) {
    && WellFormed(db)
    && (forall k :: k in db.columns <==> HasColumn(ctx, i, k))
    && (forall t :: t in db.tables <==> HasTable(ctx, i, t))
  }

  // What each part creates and removes.

  lemma ByMember(s: seq<Change>, k: ColRef)
    ensures Creating(s, k) <==> exists ch :: ch in s && k in Creates(ch)
    ensures Removing(s, k) <==> exists ch :: ch in s && k in Removes(ch)
  {
    if Creating(s, k) {
      var i :| 0 <= i < |s| && k in Creates(s[i]);
      assert s[i] in s;
    }
    if Removing(s, k) {
      var i :| 0 <= i < |s| && k in Removes(s[i]);
      assert s[i] in s;
    }
  }

  lemma TableByMember(s: seq<Change>, t: string)
    ensures CreatingTable(s, t) <==> exists ch: Change :: ch in s && ch.CreateTable? && ch.table == t
  {
    if CreatingTable(s, t) {
      var i :| 0 <= i < |s| && s[i].CreateTable? && s[i].table == t;
      assert s[i] in s;
    }
  }

  /** A part holds the changes of its bucket, in whatever order. */
  lemma PartMembers(ctx: Deployment, parts: seq<seq<Change>>, i: nat)
    requires Emission(ctx, parts) && 1 <= i < 20
    ensures multiset(parts[i]) == multiset(Bucketed(ctx, Emitted()[i]))
    ensures forall ch :: ch in parts[i] <==> ch in Bucketed(ctx, Emitted()[i])
  {
    hide BucketChanges;
    Listing.SameElements(parts[i], Bucketed(ctx, Emitted()[i]));
  }

  lemma EmissionCount(ctx: Deployment, parts: seq<seq<Change>>)
    requires Emission(ctx, parts)
    ensures |parts| == 20
  {
  }

  lemma PartIsBucket(ctx: Deployment, parts: seq<seq<Change>>, i: nat, j: nat)
    requires Emission(ctx, parts) && 1 <= i < 20 && j < |parts[i]|
    ensures parts[i][j] in Bucketed(ctx, Emitted()[i])
  {
    hide Bucketed, Emission;
    EmissionCount(ctx, parts);
    PartMembers(ctx, parts, i);
    assert parts[i][j] in parts[i];
  }

  /** The drops come first and move no columns. */
  lemma DropsMoveNothing(ctx: Deployment, parts: seq<seq<Change>>, k: ColRef, t: string)
    requires Emission(ctx, parts)
    ensures !Creating(parts[0], k) && !Removing(parts[0], k) && !CreatingTable(parts[0], t)
  {
  }

  lemma StillBucket(ctx: Deployment, b: Bucket, k: ColRef, t: string)
    requires !Moving(b)
    ensures !Creating(Bucketed(ctx, b), k) && !Removing(Bucketed(ctx, b), k) && !CreatingTable(Bucketed(ctx, b), t)
  {
    hide BucketChanges;
    var s := Bucketed(ctx, b);
    forall i | 0 <= i < |s| ensures Creates(s[i]) == {} && Removes(s[i]) == {} && !s[i].CreateTable? {
      BucketKind(ctx, b, s[i]);
    }
  }

  /** Only renames remove, and only table buckets create tables. */
  lemma MovingBucket(ctx: Deployment, b: Bucket, k: ColRef, t: string)
    requires Moving(b)
    ensures b !in {RenameColumns, RenameRelColumns} ==> !Removing(Bucketed(ctx, b), k)
    ensures b !in {CreateTables, CreateRelTables} ==> !CreatingTable(Bucketed(ctx, b), t)
  {
    hide BucketChanges;
    var s := Bucketed(ctx, b);
    forall i | 0 <= i < |s| ensures (b !in {RenameColumns, RenameRelColumns} ==> Removes(s[i]) == {}) && (b !in {CreateTables, CreateRelTables} ==> !s[i].CreateTable?) {
      BucketKind(ctx, b, s[i]);
    }
  }

  lemma NewRelTablesExact(ctx: Deployment, t: string)
    ensures CreatingTable(Bucketed(ctx, CreateRelTables), t) <==> IsRelationTable(ctx, t) && t !in ctx.db.tables
  {
    hide BucketChanges, Relates, RelationChanges, SideColumn;
    var b := Bucketed(ctx, CreateRelTables);
    if CreatingTable(b, t) {
      var i :| 0 <= i < |b| && b[i].CreateTable? && b[i].table == t;
      var c, other := RelTablesShape(ctx, b[i]);
    }
    if IsRelationTable(ctx, t) && t !in ctx.db.tables {
      var c, other :| Relates(ctx, c, other, t);
      var ch := CreateTable(t, SideColumn(ctx, "master", c) + SideColumn(ctx, "detail", other));
      NewRelationChange(ctx, c, other, t);
      IntoRelation(ctx, CreateRelTables, c, other, t, ch);
      var i :| 0 <= i < |b| && b[i] == ch;
    }
  }

  lemma NewRelationChange(ctx: Deployment, c: ClassDef, other: ClassDef, r: string)
    requires r !in ctx.db.tables
    ensures CreateTable(r, SideColumn(ctx, "master", c) + SideColumn(ctx, "detail", other)) in RelationChanges(ctx, c, other, r, CreateRelTables)
  {
    hide SideColumn;
  }

  /** One part: the columns it creates and removes lead from one stage to the next. */
  ghost predicate Advances(ctx: Deployment, i: nat, s: seq<Change>) {
    && (forall k :: HasColumn(ctx, i + 1, k) <==> (HasColumn(ctx, i, k) && !Removing(s, k)) || Creating(s, k))
    && (forall t :: HasTable(ctx, i + 1, t) <==> HasTable(ctx, i, t) || CreatingTable(s, t))
    && (forall k :: !(Creating(s, k) && Removing(s, k)))
  }

  lemma StillAdvances(ctx: Deployment, i: nat)
    requires i < 20 && i !in {3, 5, 6, 13, 15, 16} && 1 <= i
    ensures Advances(ctx, i, Bucketed(ctx, Emitted()[i]))
  {
    hide Bucketed, AfterRenames, AfterAdds, AfterSideRenames, IsClassTable, IsRelationTable;
    var s := Bucketed(ctx, Emitted()[i]);
    forall k, t ensures !Creating(s, k) && !Removing(s, k) && !CreatingTable(s, t) {
      StillBucket(ctx, Emitted()[i], k, t);
    }
    var anyTable, anyColumn := "", ColRef("", "");
    forall k ensures !Creating(s, k) && !Removing(s, k) {
      StillBucket(ctx, Emitted()[i], k, anyTable);
    }
    forall t ensures !CreatingTable(s, t) {
      StillBucket(ctx, Emitted()[i], anyColumn, t);
    }
  }

  lemma SavedIsNew(ctx: Deployment, k: ColRef)
    requires ValidModel(ctx) && k in ctx.db.columns
    ensures SavedRef(ctx, k) !in ctx.db.columns
    ensures forall n | n in PropertyNames(ctx) :: ctx.settings.naming.column(n) != Saved(ctx, k.column)
    ensures Saved(ctx, k.column) != ctx.settings.discriminator && Saved(ctx, k.column) != "master" && Saved(ctx, k.column) != "detail"
  {
    assert SuffixIsNew(ctx);
    assert ColRef(k.table, Saved(ctx, k.column)) == SavedRef(ctx, k);
  }

  lemma RenamedIsOld(ctx: Deployment, k: ColRef)
    requires Renamed(ctx, k)
    ensures k in ctx.db.columns && k.table in ctx.db.tables && IsClassTable(ctx, k.table)
  {
    hide Properties;
    var c, pm :| IsProperty(ctx, c, pm) && Migrates(ctx, c, pm) && k == Ref(ctx, c, pm);
  }

  lemma SideRenamedIsOld(ctx: Deployment, k: ColRef)
    requires SideRenamed(ctx, k)
    ensures k in ctx.db.columns && k.table in ctx.db.tables && IsRelationTable(ctx, k.table) && k.column in {"master", "detail"}
  {
    hide Relates;
  }

  lemma RenamesAdvance(ctx: Deployment)
    requires ValidModel(ctx)
    ensures Advances(ctx, 3, Bucketed(ctx, RenameColumns))
  {
    hide Bucketed, Renamed, ValidModel, IsClassTable, IsRelationTable;
    var s := Bucketed(ctx, RenameColumns);
    forall k ensures Removing(s, k) <==> Renamed(ctx, k)
      ensures Creating(s, k) <==> RenamedTo(ctx, k) {
      RenamesExact(ctx, k);
    }
    forall k ensures !(RenamedTo(ctx, k) && Renamed(ctx, k)) {
      if RenamedTo(ctx, k) {
        var o :| Renamed(ctx, o) && k == SavedRef(ctx, o);
        RenamedIsOld(ctx, o);
        SavedIsNew(ctx, o);
        if Renamed(ctx, k) {
          RenamedIsOld(ctx, k);
        }
      }
    }
    forall t ensures !CreatingTable(s, t) {
      MovingBucket(ctx, RenameColumns, ColRef("", ""), t);
    }
  }

  lemma TablesAdvance(ctx: Deployment)
    ensures Advances(ctx, 5, Bucketed(ctx, CreateTables))
  {
    hide Bucketed, AfterRenames, NewClassColumn, IsRelationTable;
    var s := Bucketed(ctx, CreateTables);
    forall k ensures !Removing(s, k)
      ensures Creating(s, k) <==> NewClassColumn(ctx, k, false) {
      NewColumnsExact(ctx, k);
      MovingBucket(ctx, CreateTables, k, "");
    }
    forall t ensures CreatingTable(s, t) <==> IsClassTable(ctx, t) && t !in ctx.db.tables {
      NewTablesExact(ctx, t);
    }
  }

  lemma AddsAdvance(ctx: Deployment)
    ensures Advances(ctx, 6, Bucketed(ctx, AddedColumns))
  {
    hide Bucketed, AfterRenames, NewClassColumn, IsClassTable, IsRelationTable;
    var s := Bucketed(ctx, AddedColumns);
    forall k ensures !Removing(s, k)
      ensures Creating(s, k) <==> NewClassColumn(ctx, k, true) {
      NewColumnsExact(ctx, k);
      MovingBucket(ctx, AddedColumns, k, "");
    }
    forall t ensures !CreatingTable(s, t) {
      MovingBucket(ctx, AddedColumns, ColRef("", ""), t);
    }
  }

  lemma SidesAdvance(ctx: Deployment)
    requires ValidModel(ctx)
    ensures Advances(ctx, 13, Bucketed(ctx, RenameRelColumns))
  {
    hide Bucketed, SideRenamed, AfterAdds, ValidModel, IsClassTable, IsRelationTable;
    var s := Bucketed(ctx, RenameRelColumns);
    forall k ensures Removing(s, k) <==> SideRenamed(ctx, k)
      ensures Creating(s, k) <==> SideRenamedTo(ctx, k) {
      SidesExact(ctx, k);
    }
    forall k ensures !(SideRenamedTo(ctx, k) && SideRenamed(ctx, k)) {
      if SideRenamedTo(ctx, k) {
        var o :| SideRenamed(ctx, o) && k == SavedRef(ctx, o);
        SideRenamedIsOld(ctx, o);
        SavedIsNew(ctx, o);
        if SideRenamed(ctx, k) {
          SideRenamedIsOld(ctx, k);
        }
      }
    }
    forall t ensures !CreatingTable(s, t) {
      MovingBucket(ctx, RenameRelColumns, ColRef("", ""), t);
    }
  }

  lemma RelTablesAdvance(ctx: Deployment)
    requires ValidModel(ctx)
    ensures Advances(ctx, 15, Bucketed(ctx, CreateRelTables))
  {
    hide Bucketed, AfterSideRenames, NewRelationColumn, ValidModel, IsClassTable, IsRelationTable;
    var s := Bucketed(ctx, CreateRelTables);
    forall k ensures !Removing(s, k)
      ensures Creating(s, k) <==> NewRelationColumn(ctx, k) {
      RelColumnsExact(ctx, k);
      MovingBucket(ctx, CreateRelTables, k, "");
    }
    forall t ensures CreatingTable(s, t) <==> IsRelationTable(ctx, t) && t !in ctx.db.tables {
      NewRelTablesExact(ctx, t);
    }
  }

  lemma AddRelAdvance(ctx: Deployment)
    ensures Advances(ctx, 16, Bucketed(ctx, AddRelColumns))
  {
    hide Bucketed, AfterSideRenames, NewRelationColumn, SideRenamed, IsClassTable, IsRelationTable;
    var s := Bucketed(ctx, AddRelColumns);
    forall k ensures !Removing(s, k)
      ensures Creating(s, k) <==> SideRenamed(ctx, k) {
      SidesExact(ctx, k);
      MovingBucket(ctx, AddRelColumns, k, "");
    }
    forall t ensures !CreatingTable(s, t) {
      MovingBucket(ctx, AddRelColumns, ColRef("", ""), t);
    }
  }

  lemma BucketAdvances(ctx: Deployment, i: nat)
    requires ValidModel(ctx) && 1 <= i < 20
    ensures Advances(ctx, i, Bucketed(ctx, Emitted()[i]))
  {
    hide Advances, Bucketed, ValidModel;
    if i == 3 {
      RenamesAdvance(ctx);
    } else if i == 5 {
      TablesAdvance(ctx);
    } else if i == 6 {
      AddsAdvance(ctx);
    } else if i == 13 {
      SidesAdvance(ctx);
    } else if i == 15 {
      RelTablesAdvance(ctx);
    } else if i == 16 {
      AddRelAdvance(ctx);
    } else {
      StillAdvances(ctx, i);
    }
  }

  lemma PartAdvances(ctx: Deployment, parts: seq<seq<Change>>, i: nat)
    requires ValidModel(ctx) && Emission(ctx, parts) && i < 20
    ensures Advances(ctx, i, parts[i])
  {
    hide ValidModel, Bucketed, HasColumn, HasTable, Creating, Removing, CreatingTable;
    if i == 0 {
      DropsAdvance(ctx, parts);
    } else {
      PartMembers(ctx, parts, i);
      BucketAdvances(ctx, i);
      var s := Bucketed(ctx, Emitted()[i]);
      forall k ensures Creating(parts[i], k) <==> Creating(s, k)
        ensures Removing(parts[i], k) <==> Removing(s, k) {
        ByMember(parts[i], k);
        ByMember(s, k);
      }
      forall t ensures CreatingTable(parts[i], t) <==> CreatingTable(s, t) {
        TableByMember(parts[i], t);
        TableByMember(s, t);
      }
    }
  }

  lemma DropsAdvance(ctx: Deployment, parts: seq<seq<Change>>)
    requires Emission(ctx, parts)
    ensures Advances(ctx, 0, parts[0])
  {
    hide IsClassTable, IsRelationTable;
    forall k ensures !Creating(parts[0], k) && !Removing(parts[0], k) {
      DropsMoveNothing(ctx, parts, k, "");
    }
    forall t ensures !CreatingTable(parts[0], t) {
      DropsMoveNothing(ctx, parts, ColRef("", ""), t);
    }
  }

  /** A part that runs through leads to the next stage. */
  lemma StageStep(ctx: Deployment, parts: seq<seq<Change>>, i: nat, engine: Engine, db: Schema)
    requires ValidModel(ctx) && Emission(ctx, parts) && i < 20 && Reached(ctx, i, db)
    requires Run(engine, db, parts[i]).Some?
    ensures Reached(ctx, i + 1, Run(engine, db, parts[i]).value)
  {
    hide ValidModel, HasColumn, HasTable, Creating, Removing, CreatingTable, Run, Bucketed, BucketChanges, DropList;
    PartAdvances(ctx, parts, i);
    RunKeys(engine, db, parts[i]);
    RunWellFormed(engine, db, parts[i]);
  }
}
