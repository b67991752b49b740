/** The change sets of a plan may fail without stopping the run. Whatever the database refuses of a
    plan, in whatever order the rest is applied, no old column is lost: it keeps its cells under its
    own name until it is renamed, and under the saved name from then on. The statements that copy
    the data of relation tables are included here; they address the table under another prefix. */
module PlanRefusals {
  import opened Wrappers
  import opened PropertyTypes
  import opened Database
  import opened Batches
  import opened DeployPlan
  import opened PlanShape
  import opened PlanColumns
  import opened PlanStages
  import opened PlanRuns
  import opened PlanExecutes
  import opened PlanData

  /** Attempts the changes in order: one that cannot be applied is refused, any other may be. */
  ghost function Attempt(engine: Engine, db: Schema, plan: seq<Change>, granted: seq<bool>): Schema
    requires WellFormed(db) && |granted| == |plan|
    decreases |plan|
  {
    if plan == [] then db
    else if granted[0] && CanApply(db, plan[0]) then
      ApplyEffect(engine, db, plan[0]);
      Attempt(engine, Apply(engine, db, plan[0]), plan[1..], granted[1..])
    else Attempt(engine, db, plan[1..], granted[1..])
  }

  /** The assignments that copy the migrated sides of a relation table, by the old key of the class. */
  function SideCopies(ctx: Deployment, r: string, side: string, c: ClassDef): seq<Copy> {
    var n := ctx.settings.naming;
    if SideDecision(ctx, r, side, c) == Some(Migrate) then
      match FollowedKey(ctx.db.keys, r, side, Table(ctx, c))
      case None => []
      case Some(pk) => [Copy(side, Saved(ctx, side), None, Some(Lookup(Table(ctx, c), n.column(KeyProperty(ctx, c).value.name), Saved(ctx, pk))))]
    else []
  }

  /** The statement that copies the data of relation table r; it names the table with the prefix of
      class tables. */
  function RelationCopy(ctx: Deployment, c: ClassDef, other: ClassDef, r: string): Change {
    CopyData(ctx.settings.naming.table(r), SideCopies(ctx, r, "master", c) + SideCopies(ctx, r, "detail", other))
  }

  /** A change of the plan, or a statement that copies relation data. */
  ghost predicate Planned(ctx: Deployment, parts: seq<seq<Change>>, ch: Change) {
    (exists i :: 0 <= i < |parts| && ch in parts[i]) || exists c, other, r :: ch == RelationCopy(ctx, c, other, r)
  }

  /** What a change may do to an old column: rename it to its saved name, or assign to it once that name is there. */
  ghost predicate Harmless(ctx: Deployment, k: ColRef, ch: Change) {
    var rename := RenameColumn(k.table, k.column, Saved(ctx, k.column));
    && (k in Removes(ch) ==> ch == rename)
    && (SavedRef(ctx, k) in Creates(ch) ==> ch == rename)
    && (k in Writes(ch) ==> SavedRef(ctx, k) in Needs(ch))
    && SavedRef(ctx, k) !in Removes(ch) && SavedRef(ctx, k) !in Writes(ch)
  }

  ghost predicate Kept(ctx: Deployment, k: ColRef, db: Schema)
    requires k in ctx.db.columns
  {
    if SavedRef(ctx, k) in db.columns then db.columns[SavedRef(ctx, k)].cells == ctx.db.columns[k].cells
    else k in db.columns && db.columns[k].cells == ctx.db.columns[k].cells
  }

  lemma KeptStep(ctx: Deployment, k: ColRef, engine: Engine, db: Schema, ch: Change)
    requires k in ctx.db.columns && WellFormed(db) && CanApply(db, ch) && Harmless(ctx, k, ch) && Kept(ctx, k, db)
    ensures WellFormed(Apply(engine, db, ch)) && Kept(ctx, k, Apply(engine, db, ch))
  {
    hide WellFormed, Writes, Retypes, WithColumns, WithCopies;
    var n := SavedRef(ctx, k);
    ApplyEffect(engine, db, ch);
    if n in db.columns {
      ApplyKeeps(engine, db, ch, n);
    } else if ch == RenameColumn(k.table, k.column, Saved(ctx, k.column)) {
      assert n in Creates(ch);
    } else {
      ApplyKeeps(engine, db, ch, k);
    }
  }

  lemma {:induction false} KeptThroughout(ctx: Deployment, k: ColRef, engine: Engine, db: Schema, plan: seq<Change>, granted: seq<bool>)
    requires k in ctx.db.columns && WellFormed(db) && Kept(ctx, k, db) && |granted| == |plan|
    requires forall ch | ch in plan :: Harmless(ctx, k, ch)
    ensures Kept(ctx, k, Attempt(engine, db, plan, granted))
    decreases |plan|
  {
    hide WellFormed, CanApply, Apply, Kept, Harmless;
    if plan != [] {
      if granted[0] && CanApply(db, plan[0]) {
        KeptStep(ctx, k, engine, db, plan[0]);
        KeptThroughout(ctx, k, engine, Apply(engine, db, plan[0]), plan[1..], granted[1..]);
      } else {
        KeptThroughout(ctx, k, engine, db, plan[1..], granted[1..]);
      }
    }
  }

  // The changes of a plan.

  lemma RenameIsHarmless(ctx: Deployment, k: ColRef, ch: Change, o: ColRef)
    requires ValidModel(ctx) && k in ctx.db.columns && o in ctx.db.columns
    requires ch == RenameColumn(o.table, o.column, Saved(ctx, o.column))
    ensures Harmless(ctx, k, ch)
  {
    hide ValidModel, Saved;
    SavedIsNew(ctx, k);
    if SavedRef(ctx, k) in Creates(ch) {
      SameSaved(ctx, k.column, o.column);
    }
  }

  lemma CreationIsHarmless(ctx: Deployment, k: ColRef, b: Bucket, ch: Change)
    requires ValidModel(ctx) && k in ctx.db.columns && b in {CreateTables, AddedColumns} && ch in Bucketed(ctx, b)
    ensures Harmless(ctx, k, ch)
  {
    hide ValidModel, Bucketed, ClassColumns, NewIn, Saved;
    var c;
    if b == CreateTables {
      c := TablesShape(ctx, ch);
    } else {
      c := AddsShape(ctx, ch);
    }
    ClassColumnsExact(ctx, c, SavedRef(ctx, k).column);
    NoNewSaved(ctx, c, k);
  }

  lemma SidesAreHarmless(ctx: Deployment, k: ColRef, b: Bucket, ch: Change)
    requires ValidModel(ctx) && k in ctx.db.columns && b in {CreateRelTables, AddRelColumns} && ch in Bucketed(ctx, b)
    ensures Harmless(ctx, k, ch)
  {
    hide ValidModel, Bucketed, Relates, SideRenamed, KeyProperty, Saved, SideAdds;
    SavedIsNew(ctx, k);
    if b == CreateRelTables {
      var c, other := RelTablesShape(ctx, ch);
    } else {
      var c, other := AddRelShape(ctx, ch);
      if SavedRef(ctx, k) in Creates(ch) {
        SideRenamedIsOld(ctx, SavedRef(ctx, k));
      }
    }
  }

  lemma CopySource(ctx: Deployment, c: ClassDef, pm: PropertyMeta, cp: Copy)
    requires cp in PropertyCopies(ctx, c, pm)
    ensures cp.source == Saved(ctx, cp.target)
  {
    hide SituationOf, Deployed, Followed;
  }

  /** What the data part assigns to was not there, or is assigned from its saved cells. */
  lemma WritesFromSaved(ctx: Deployment, k: ColRef, ch: Change)
    requires ch in Bucketed(ctx, DataMigrate) && k in Writes(ch) && k in ctx.db.columns
    ensures SavedRef(ctx, k) in Needs(ch)
  {
    hide Properties, BucketChanges, PropertyChanges, PropertyCopies, AllPropertyChanges, AllCopies, Saved, Searched;
    var c := FromClass(ctx, ctx.order, DataMigrate, ch);
    var ps := Properties(ctx, c);
    if ch in AllPropertyChanges(ctx, c, ps, DataMigrate) {
      var pm := FromProperty(ctx, c, ps, DataMigrate, ch);
      BackfillWrites(ctx, c, pm, ch);
      FilledIsAbsent(ctx, c, pm);
    } else {
      var cs := AllCopies(ctx, c, ps);
      var i :| 0 <= i < |cs| && k == ColRef(Table(ctx, c), cs[i].target);
      assert cs[i] in cs;
      var pm := FromCopies(ctx, c, ps, cs[i]);
      CopySource(ctx, c, pm, cs[i]);
      assert ColRef(Table(ctx, c), cs[i].source) in Needs(ch);
    }
  }

  lemma FilledIsAbsent(ctx: Deployment, c: ClassDef, pm: PropertyMeta)
    requires GetsBackfill(ctx, c, pm)
    ensures Ref(ctx, c, pm) !in ctx.db.columns
  {
  }

  lemma DataIsHarmless(ctx: Deployment, k: ColRef, ch: Change)
    requires ValidModel(ctx) && k in ctx.db.columns && ch in Bucketed(ctx, DataMigrate)
    ensures Harmless(ctx, k, ch)
  {
    hide ValidModel, Bucketed, Saved, Written, Writes, Needs, Properties;
    BucketKind(ctx, DataMigrate, ch);
    SavedIsNew(ctx, k);
    if k in Writes(ch) {
      WritesFromSaved(ctx, k, ch);
    }
    if SavedRef(ctx, k) in Writes(ch) {
      WritesShape(ctx, DataMigrate, ch, SavedRef(ctx, k));
      var c, pm := WrittenBy(ctx, SavedRef(ctx, k));
      ClassFacts(ctx, c);
    }
  }

  lemma BucketIsHarmless(ctx: Deployment, k: ColRef, b: Bucket, ch: Change)
    requires ValidModel(ctx) && k in ctx.db.columns && ch in Bucketed(ctx, b)
    ensures Harmless(ctx, k, ch)
  {
    hide ValidModel, Bucketed, Harmless, Renamed, SideRenamed, Saved;
    if b == RenameColumns {
      RenamesShape(ctx, ch);
      RenamedIsOld(ctx, ColRef(ch.table, ch.column));
      RenameIsHarmless(ctx, k, ch, ColRef(ch.table, ch.column));
    } else if b == RenameRelColumns {
      SideShape(ctx, ch);
      SideRenamedIsOld(ctx, ColRef(ch.table, ch.column));
      RenameIsHarmless(ctx, k, ch, ColRef(ch.table, ch.column));
    } else if b == CreateTables || b == AddedColumns {
      CreationIsHarmless(ctx, k, b, ch);
    } else if b == CreateRelTables || b == AddRelColumns {
      SidesAreHarmless(ctx, k, b, ch);
    } else if b == DataMigrate {
      DataIsHarmless(ctx, k, ch);
    } else {
      BucketKind(ctx, b, ch);
      StillIsHarmless(ctx, k, b, ch);
    }
  }

  lemma StillIsHarmless(ctx: Deployment, k: ColRef, b: Bucket, ch: Change)
    requires OfKind(b, ch) && !Moving(b) && b != DataMigrate
    ensures Harmless(ctx, k, ch)
  {
  }

  lemma {:induction false} RelationCopyIsHarmless(ctx: Deployment, k: ColRef, c: ClassDef, other: ClassDef, r: string)
    requires ValidModel(ctx) && k in ctx.db.columns
    ensures Harmless(ctx, k, RelationCopy(ctx, c, other, r))
  {
    hide ValidModel, SideDecision, FollowedKey, KeyProperty, Searched;
    SavedIsNew(ctx, k);
    var ch := RelationCopy(ctx, c, other, r);
    var cs := ch.copies;
    assert forall i | 0 <= i < |cs| :: cs[i].target in {"master", "detail"} && cs[i].source == Saved(ctx, cs[i].target);
    if k in Writes(ch) {
      var i :| 0 <= i < |cs| && k == ColRef(ch.table, cs[i].target);
      assert ColRef(ch.table, cs[i].source) in Needs(ch);
    }
  }

  lemma DropIsHarmless(ctx: Deployment, k: ColRef, ch: Change)
    requires ch.DropForeignKey?
    ensures Harmless(ctx, k, ch)
  {
  }

  lemma PlannedIsHarmless(ctx: Deployment, parts: seq<seq<Change>>, k: ColRef, ch: Change)
    requires ValidModel(ctx) && Emission(ctx, parts) && k in ctx.db.columns && Planned(ctx, parts, ch)
    ensures Harmless(ctx, k, ch)
  {
    hide ValidModel, Bucketed, Harmless, RelationCopy, Emission, Emitted;
    EmissionCount(ctx, parts);
    if i :| 0 <= i < |parts| && ch in parts[i] {
      if i == 0 {
        FirstDrops(ctx, parts, ch);
        DropIsHarmless(ctx, k, ch);
      } else {
        PartMembers(ctx, parts, i);
        BucketIsHarmless(ctx, k, Emitted()[i], ch);
      }
    } else {
      var c, other, r :| ch == RelationCopy(ctx, c, other, r);
      RelationCopyIsHarmless(ctx, k, c, other, r);
    }
  }

  lemma FirstDrops(ctx: Deployment, parts: seq<seq<Change>>, ch: Change)
    requires Emission(ctx, parts) && ch in parts[0]
    ensures ch.DropForeignKey?
  {
    var j :| 0 <= j < |parts[0]| && parts[0][j] == ch;
    assert DropsExisting(ctx, parts[0][j]);
  }

  /** Whatever part of a plan is attempted, in whatever order, with the statements that copy relation
      data, and whatever of it is refused: every old column is there with all its cells, under its
      own name or under its saved one. */
  lemma NothingLostAnyway(ctx: Deployment, parts: seq<seq<Change>>, engine: Engine, plan: seq<Change>, granted: seq<bool>, k: ColRef)
    requires ValidModel(ctx) && Emission(ctx, parts) && k in ctx.db.columns
    requires |granted| == |plan| && forall ch | ch in plan :: Planned(ctx, parts, ch)
    ensures WellFormed(ctx.db)
    ensures var r := Attempt(engine, ctx.db, plan, granted);
            || (k in r.columns && r.columns[k].cells == ctx.db.columns[k].cells)
            || (SavedRef(ctx, k) in r.columns && r.columns[SavedRef(ctx, k)].cells == ctx.db.columns[k].cells)
  {
    hide ValidModel, Emission, Planned, Harmless, Attempt;
    SavedIsNew(ctx, k);
    NewTableHasNoColumns(ctx, k);
    forall ch | ch in plan ensures Harmless(ctx, k, ch) {
      PlannedIsHarmless(ctx, parts, k, ch);
    }
    KeptThroughout(ctx, k, engine, ctx.db, plan, granted);
  }
}
