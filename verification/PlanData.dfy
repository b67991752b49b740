/** What a plan does to the data: no old column is lost, in-place changes only widen, and
    migrated scalar columns hold the old values, cast. Each column is followed through the
    parts: it is renamed at most once, by the one part that renames its kind, and what is
    written later is new, so the old cells stay as they are. */
module PlanData {
  import opened Wrappers
  import opened PropertyTypes
  import opened Database
  import opened Batches
  import opened DeployPlan
  import opened PlanShape
  import opened PlanColumns
  import opened PlanStages
  import opened PlanRuns
  import opened PlanKeys
  import opened PlanFits
  import opened PlanParts
  import opened PlanExecutes

  /** k holds a property the plan writes to: a migrated one or a new discriminator. */
  ghost predicate Written(ctx: Deployment, k: ColRef) {
    exists c, pm :: IsProperty(ctx, c, pm) && WrittenAs(ctx, c, pm, k)
  }

  ghost predicate WrittenAs(ctx: Deployment, c: ClassDef, pm: PropertyMeta, k: ColRef) {
    || (k == Ref(ctx, c, pm) && (GetsBackfill(ctx, c, pm) || (Migrates(ctx, c, pm) && Scalar(pm))))
    || (k == ColRef(Table(ctx, c), ctx.settings.naming.column(pm.name)) && Migrates(ctx, c, pm) && pm.kind == REFERENCE)
  }

  predicate Scalar(pm: PropertyMeta) {
    pm.kind != COLLECTION && pm.kind != REFERENCE
  }

  lemma PropertyWrites(ctx: Deployment, c: ClassDef, ch: Change, k: ColRef)
    requires IsClass(ctx, c) && ch in ClassChanges(ctx, c, Properties(ctx, c), DataMigrate) && k in Writes(ch)
    ensures Written(ctx, k)
  {
    hide Properties, PropertyChanges, PropertyCopies, AllPropertyChanges, AllCopies, ColumnName, Table, Migrates, GetsBackfill;
    var ps := Properties(ctx, c);
    if ch in AllPropertyChanges(ctx, c, ps, DataMigrate) {
      var pm := FromProperty(ctx, c, ps, DataMigrate, ch);
      BackfillWrites(ctx, c, pm, ch);
      assert WrittenAs(ctx, c, pm, k);
    } else {
      var cs := AllCopies(ctx, c, ps);
      var i :| 0 <= i < |cs| && k == ColRef(Table(ctx, c), cs[i].target);
      assert cs[i] in cs;
      var pm := FromCopies(ctx, c, ps, cs[i]);
      CopyWrites(ctx, c, pm, cs[i]);
      assert WrittenAs(ctx, c, pm, k);
    }
  }

  lemma BackfillWrites(ctx: Deployment, c: ClassDef, pm: PropertyMeta, ch: Change)
    requires ch in PropertyChanges(ctx, c, pm, DataMigrate)
    ensures GetsBackfill(ctx, c, pm) && Writes(ch) == {Ref(ctx, c, pm)}
  {
    hide SituationOf, Script;
  }

  lemma CopyWrites(ctx: Deployment, c: ClassDef, pm: PropertyMeta, cp: Copy)
    requires cp in PropertyCopies(ctx, c, pm)
    ensures Migrates(ctx, c, pm) && pm.kind != COLLECTION
    ensures cp.target == if pm.kind == REFERENCE then ctx.settings.naming.column(pm.name) else ColumnName(ctx, pm)
  {
    hide Deployed, Followed, SituationOf;
  }

  /** In a valid model the two ways to name the column of a reference agree. */
  lemma CopyTarget(ctx: Deployment, c: ClassDef, pm: PropertyMeta, cp: Copy)
    requires ValidModel(ctx) && IsProperty(ctx, c, pm) && cp in PropertyCopies(ctx, c, pm)
    ensures cp.target == ColumnName(ctx, pm)
  {
    hide ValidModel, Properties, PropertyCopies;
    CopyWrites(ctx, c, pm, cp);
    if pm.kind == REFERENCE {
      ReferenceColumn(ctx, c, pm);
    }
  }

  lemma ReferenceColumn(ctx: Deployment, c: ClassDef, pm: PropertyMeta)
    requires ValidModel(ctx) && IsProperty(ctx, c, pm) && pm.kind == REFERENCE
    ensures ColumnName(ctx, pm) == ctx.settings.naming.column(pm.name)
  {
    hide Properties;
    ClassFacts(ctx, c);
  }

  lemma WritesShape(ctx: Deployment, b: Bucket, ch: Change, k: ColRef)
    requires ch in Bucketed(ctx, b) && k in Writes(ch)
    ensures b == DataMigrate && Written(ctx, k)
  {
    hide BucketChanges, Written, ClassChanges, Properties;
    BucketKind(ctx, b, ch);
    var c := FromClass(ctx, ctx.order, b, ch);
    PropertyWrites(ctx, c, ch, k);
  }

  lemma PartWrites(ctx: Deployment, parts: seq<seq<Change>>, i: nat, k: ColRef)
    requires Emission(ctx, parts) && i < 20 && Writing(parts[i], k)
    ensures i == 7 && Written(ctx, k)
  {
    hide Bucketed, Written, Writes, Emission, Emitted;
    EmissionCount(ctx, parts);
    var j :| 0 <= j < |parts[i]| && k in Writes(parts[i][j]);
    if i > 0 {
      PartIsBucket(ctx, parts, i, j);
      WritesShape(ctx, Emitted()[i], parts[i][j], k);
      EmittedAt(i);
    } else {
      DropWrites(ctx, parts, j);
    }
  }

  lemma EmittedAt(i: nat)
    requires i < 20
    ensures (Emitted()[i] == DataMigrate <==> i == 7) && (Emitted()[i] == RenameColumns <==> i == 3) && (Emitted()[i] == RenameRelColumns <==> i == 13)
  {
  }

  lemma DropWrites(ctx: Deployment, parts: seq<seq<Change>>, j: nat)
    requires Emission(ctx, parts) && j < |parts[0]|
    ensures Writes(parts[0][j]) == {} && Removes(parts[0][j]) == {}
  {
    assert DropsExisting(ctx, parts[0][j]);
  }

  lemma BucketRemoves(ctx: Deployment, b: Bucket, ch: Change, k: ColRef)
    requires ch in Bucketed(ctx, b) && k in Removes(ch)
    ensures (b == RenameColumns && Renamed(ctx, k)) || (b == RenameRelColumns && SideRenamed(ctx, k))
  {
    hide Bucketed, Renamed, SideRenamed;
    BucketKind(ctx, b, ch);
    if b == RenameColumns {
      RenamesShape(ctx, ch);
    } else {
      SideShape(ctx, ch);
    }
  }

  lemma PartRemoves(ctx: Deployment, parts: seq<seq<Change>>, i: nat, k: ColRef)
    requires Emission(ctx, parts) && i < 20 && Removing(parts[i], k)
    ensures (i == 3 && Renamed(ctx, k)) || (i == 13 && SideRenamed(ctx, k))
  {
    hide Bucketed, Renamed, SideRenamed, Removes, Emission, Emitted;
    EmissionCount(ctx, parts);
    var j :| 0 <= j < |parts[i]| && k in Removes(parts[i][j]);
    if i > 0 {
      PartIsBucket(ctx, parts, i, j);
      BucketRemoves(ctx, Emitted()[i], parts[i][j], k);
      EmittedAt(i);
    } else {
      DropWrites(ctx, parts, j);
    }
  }

  /** The database after the first i parts. */
  ghost function After(ctx: Deployment, parts: seq<seq<Change>>, engine: Engine, i: nat): Schema
    requires i <= |parts| && WellFormed(ctx.db) && Run(engine, ctx.db, Flatten(parts[..i])).Some?
  {
    Run(engine, ctx.db, Flatten(parts[..i])).value
  }

  /** A plan that runs through. */
  ghost predicate Runs(ctx: Deployment, parts: seq<seq<Change>>, engine: Engine) {
    && ValidModel(ctx) && Emission(ctx, parts) && WellFormed(ctx.db)
    && Run(engine, ctx.db, Flatten(parts)).Some?
  }

  lemma StageOf(ctx: Deployment, parts: seq<seq<Change>>, engine: Engine, i: nat)
    requires Runs(ctx, parts, engine) && i <= 20
    ensures Run(engine, ctx.db, Flatten(parts[..i])).Some? && WellFormed(After(ctx, parts, engine, i))
    ensures Reached(ctx, i, After(ctx, parts, engine, i))
    ensures i < 20 ==> Run(engine, ctx.db, Flatten(parts[..i + 1])).Some?
    ensures i < 20 ==> Run(engine, After(ctx, parts, engine, i), parts[i]) == Run(engine, ctx.db, Flatten(parts[..i + 1]))
  {
    hide ValidModel, Bucketed, BucketChanges, DropList, Run, Flatten, HasColumn, HasTable;
    assert parts[..20] == parts;
    PrefixRuns(ctx.db, parts, engine, i, 20);
    PartsReached(ctx, parts, engine, i);
    if i < 20 {
      FlattenNext(parts, i);
      PrefixRuns(ctx.db, parts, engine, i + 1, 20);
      RunConcat(engine, ctx.db, Flatten(parts[..i]), parts[i]);
    }
  }

  lemma KeysOf(ctx: Deployment, parts: seq<seq<Change>>, engine: Engine, i: nat)
    requires Runs(ctx, parts, engine) && i <= 20 && Run(engine, ctx.db, Flatten(parts[..i])).Some?
    ensures KeysReached(ctx, parts[0], i, After(ctx, parts, engine, i)) && KeysReady(ctx, parts[0])
  {
    hide ValidModel, Bucketed, BucketChanges, DropList, Run, Flatten, KeysReached, KeysReady, Deployable;
    assert parts[..20] == parts;
    PartsReached(ctx, parts, engine, i);
    MustBeReady(ctx, parts, engine);
  }

  /** A column no part from i to j renames or writes keeps its cells. */
  lemma {:induction false} KeptFrom(ctx: Deployment, parts: seq<seq<Change>>, engine: Engine, i: nat, j: nat, k: ColRef)
    requires Runs(ctx, parts, engine) && i <= j <= 20
    requires Run(engine, ctx.db, Flatten(parts[..i])).Some? && k in After(ctx, parts, engine, i).columns
    requires forall l | i <= l < j :: !Removing(parts[l], k) && !Writing(parts[l], k)
    ensures Run(engine, ctx.db, Flatten(parts[..j])).Some?
    ensures k in After(ctx, parts, engine, j).columns
    ensures After(ctx, parts, engine, j).columns[k].cells == After(ctx, parts, engine, i).columns[k].cells
    decreases j - i
  {
    hide Runs, Run, Flatten, Reached, Removing, Writing;
    PartCount(ctx, parts, engine);
    StageOf(ctx, parts, engine, i);
    if i < j {
      RunKeeps(engine, After(ctx, parts, engine, i), parts[i], k);
      StageOf(ctx, parts, engine, i + 1);
      KeptFrom(ctx, parts, engine, i + 1, j, k);
    }
  }

  lemma PartCount(ctx: Deployment, parts: seq<seq<Change>>, engine: Engine)
    requires Runs(ctx, parts, engine)
    ensures |parts| == 20 && WellFormed(ctx.db)
  {
  }

  /** A column renamed in part i is found whole under its new name after it. */
  lemma MovedBy(ctx: Deployment, parts: seq<seq<Change>>, engine: Engine, i: nat, k: ColRef)
    requires Runs(ctx, parts, engine) && i in {3, 13}
    requires if i == 3 then Renamed(ctx, k) else SideRenamed(ctx, k)
    requires Run(engine, ctx.db, Flatten(parts[..i])).Some? && Run(engine, ctx.db, Flatten(parts[..i + 1])).Some?
    ensures k in After(ctx, parts, engine, i).columns && SavedRef(ctx, k) in After(ctx, parts, engine, i + 1).columns
    ensures After(ctx, parts, engine, i + 1).columns[SavedRef(ctx, k)] == After(ctx, parts, engine, i).columns[k]
  {
    hide ValidModel, Bucketed, BucketChanges, DropList, Run, Flatten, Reached, Renamed, SideRenamed;
    hide Independent, AllApply;
    var b := Emitted()[i];
    var ch := RenameColumn(k.table, k.column, Saved(ctx, k.column));
    if i == 3 {
      RenameOf(ctx, k);
    } else {
      SideRenameOf(ctx, k);
    }
    PartMembers(ctx, parts, i);
    var j :| 0 <= j < |parts[i]| && parts[i][j] == ch;
    forall l | 0 <= l < |parts[i]| ensures parts[i][l].RenameColumn? {
      assert parts[i][l] in Bucketed(ctx, b);
      BucketKind(ctx, b, parts[i][l]);
    }
    StageOf(ctx, parts, engine, i);
    PartIndependent(ctx, parts, i);
    RenamesApply(ctx, parts, engine, i);
    RunRenames(engine, After(ctx, parts, engine, i), parts[i], j);
  }

  lemma RenamesApply(ctx: Deployment, parts: seq<seq<Change>>, engine: Engine, i: nat)
    requires Runs(ctx, parts, engine) && 1 <= i < 20 && Run(engine, ctx.db, Flatten(parts[..i])).Some?
    ensures AllApply(After(ctx, parts, engine, i), parts[i])
  {
    hide ValidModel, Bucketed, BucketChanges, DropList, Run, Flatten, Deployable, KeysReached, KeysReady;
    assert parts[..20] == parts;
    MustBeDeployable(ctx, parts, engine);
    StageOf(ctx, parts, engine, i);
    KeysOf(ctx, parts, engine, i);
    PartApplies(ctx, parts, i, After(ctx, parts, engine, i));
  }

  /** Where an old column is found after the plan: under its own name, or under its name
      with the suffix of the change log. */
  ghost function Home(ctx: Deployment, k: ColRef): ColRef {
    if Renamed(ctx, k) || SideRenamed(ctx, k) then SavedRef(ctx, k) else k
  }

  lemma NotBothRenamed(ctx: Deployment, k: ColRef)
    requires ValidModel(ctx)
    ensures !(Renamed(ctx, k) && SideRenamed(ctx, k))
  {
    hide ValidModel, Renamed, Relates;
    if Renamed(ctx, k) && SideRenamed(ctx, k) {
      RenamedIsOld(ctx, k);
      var c, other :| Relates(ctx, c, other, k.table);
      RelationIsNoClassTable(ctx, c, other, k.table);
    }
  }

  /** The property that a written column belongs to. */
  lemma WrittenBy(ctx: Deployment, k: ColRef) returns (c: ClassDef, pm: PropertyMeta)
    requires ValidModel(ctx) && Written(ctx, k)
    ensures IsProperty(ctx, c, pm) && k == Ref(ctx, c, pm)
    ensures GetsBackfill(ctx, c, pm) || (Migrates(ctx, c, pm) && pm.kind != COLLECTION)
  {
    hide ValidModel, Properties, SituationOf;
    c, pm :| IsProperty(ctx, c, pm) && WrittenAs(ctx, c, pm, k);
    if pm.kind == REFERENCE {
      ReferenceColumn(ctx, c, pm);
    }
  }

  /** A written column is new: it is not there, or renamed away first. */
  lemma WrittenIsNew(ctx: Deployment, k: ColRef)
    requires ValidModel(ctx) && Written(ctx, k)
    ensures k in ctx.db.columns ==> Renamed(ctx, k)
    ensures !RenamedTo(ctx, k) && !SideRenamedTo(ctx, k) && IsClassTable(ctx, k.table)
  {
    hide ValidModel, Renamed, Properties, Written;
    var c, pm := WrittenBy(ctx, k);
    RenamedRef(ctx, c, pm);
    OwnNameNotRenamedTo(ctx, c, pm, k.table);
    ClassTableThere(ctx, 6, c);
  }

  /** The old column is not renamed twice and never written. */
  lemma HomeIsSafe(ctx: Deployment, k: ColRef)
    requires ValidModel(ctx) && k in ctx.db.columns
    ensures var h := Home(ctx, k); !Written(ctx, h) && !Renamed(ctx, h) && !SideRenamed(ctx, h)
  {
    hide ValidModel, Renamed, SideRenamed, Written;
    NotBothRenamed(ctx, k);
    var h := Home(ctx, k);
    if Written(ctx, h) {
      WrittenIsNew(ctx, h);
    }
    if h != k {
      SavedIsNew(ctx, k);
      if Renamed(ctx, h) {
        RenamedIsOld(ctx, h);
      }
      if SideRenamed(ctx, h) {
        SideRenamedIsOld(ctx, h);
      }
    }
  }

  lemma NothingMoves(ctx: Deployment, parts: seq<seq<Change>>, k: ColRef)
    requires Emission(ctx, parts) && !Written(ctx, k)
    ensures forall l | 0 <= l < 20 :: !Writing(parts[l], k)
    ensures !Renamed(ctx, k) ==> forall l | 0 <= l < 20 && l != 13 :: !Removing(parts[l], k)
    ensures !SideRenamed(ctx, k) ==> forall l | 0 <= l < 20 && l != 3 :: !Removing(parts[l], k)
  {
    hide Emission, Renamed, SideRenamed, Written, Writing, Removing;
    forall l | 0 <= l < 20 ensures l < |parts| && !Writing(parts[l], k) && (Removing(parts[l], k) ==> (l == 3 && Renamed(ctx, k)) || (l == 13 && SideRenamed(ctx, k))) {
      assert |parts| == 20 by { EmissionCount(ctx, parts); }
      if Writing(parts[l], k) {
        PartWrites(ctx, parts, l, k);
      }
      if Removing(parts[l], k) {
        PartRemoves(ctx, parts, l, k);
      }
    }
  }

  /** Every old column survives the plan with all its cells. */
  lemma NothingLost(ctx: Deployment, parts: seq<seq<Change>>, engine: Engine, k: ColRef)
    requires Runs(ctx, parts, engine) && k in ctx.db.columns
    ensures var r, h := Run(engine, ctx.db, Flatten(parts)).value, Home(ctx, k);
            h in r.columns && r.columns[h].cells == ctx.db.columns[k].cells
  {
    hide ValidModel, Emission, Run, Flatten, Renamed, SideRenamed, Written, Removing, Writing;
    EmissionCount(ctx, parts);
    assert parts[..20] == parts && parts[..0] == [];
    StartIs(ctx, engine);
    StageOf(ctx, parts, engine, 0);
    HomeIsSafe(ctx, k);
    var h := Home(ctx, k);
    NothingMoves(ctx, parts, h);
    if h == k {
      KeptFrom(ctx, parts, engine, 0, 20, k);
    } else {
      NotBothRenamed(ctx, k);
      var i := if Renamed(ctx, k) then 3 else 13;
      UntilRenamed(ctx, parts, engine, k, i);
      StageOf(ctx, parts, engine, i);
      MovedBy(ctx, parts, engine, i, k);
      KeptFrom(ctx, parts, engine, i + 1, 20, h);
    }
  }

  lemma StartIs(ctx: Deployment, engine: Engine)
    requires WellFormed(ctx.db)
    ensures Run(engine, ctx.db, Flatten([])) == Some(ctx.db)
  {
  }

  /** Up to the part that renames it, a column stays as it was. */
  lemma UntilRenamed(ctx: Deployment, parts: seq<seq<Change>>, engine: Engine, k: ColRef, i: nat)
    requires Runs(ctx, parts, engine) && k in ctx.db.columns && i in {3, 13}
    requires if i == 3 then Renamed(ctx, k) else SideRenamed(ctx, k)
    ensures Run(engine, ctx.db, Flatten(parts[..i])).Some? && k in After(ctx, parts, engine, i).columns
    ensures After(ctx, parts, engine, i).columns[k].cells == ctx.db.columns[k].cells
  {
    hide ValidModel, Emission, Run, Flatten, Renamed, SideRenamed, Written, Removing, Writing;
    EmissionCount(ctx, parts);
    assert parts[..0] == [];
    StartIs(ctx, engine);
    StageOf(ctx, parts, engine, 0);
    NotBothRenamed(ctx, k);
    forall l | 0 <= l < i ensures !Removing(parts[l], k) && !Writing(parts[l], k) {
      if Writing(parts[l], k) {
        PartWrites(ctx, parts, l, k);
        WrittenIsNew(ctx, k);
      }
      if Removing(parts[l], k) {
        PartRemoves(ctx, parts, l, k);
      }
    }
    KeptFrom(ctx, parts, engine, 0, i, k);
  }

  // In-place changes.

  /** An in-place change of a class-table column restates its current type, turns DATE into
      datetime or enlarges a character column. */
  lemma InPlaceOnlyWidens(ctx: Deployment, defaultLength: int, b: Bucket, ch: Change)
    requires ctx.settings.rules == StandardRules(defaultLength)
    requires b in {CleanPK, ModifyTypes} && ch in Bucketed(ctx, b)
    ensures ch.ModifyDataType? && ColRef(ch.table, ch.column) in ctx.db.columns
    ensures var info := ctx.db.columns[ColRef(ch.table, ch.column)].info;
            || (b == CleanPK && ch.newType == CurrentType(info))
            || (info.dataType == DATE && ch.newType == ColumnType("datetime", None, None))
            || (IsCharacter(info.dataType) && ch.newType.name in {"char", "varchar"} && ch.newType.size.Some? && info.size < ch.newType.size.value)
  {
    hide BucketChanges, Properties, IsKey, KeyProperty;
    var c, pm := FromBucket(ctx, b, ch);
    PresentFacts(ctx, c, pm);
    var info := ctx.db.columns[Ref(ctx, c, pm)].info;
    if b == ModifyTypes {
      WideningDecision(ctx, defaultLength, c, pm);
      InPlaceChangesWiden(pm, Deployed(ctx, pm), info, defaultLength);
    }
  }

  lemma WideningDecision(ctx: Deployment, defaultLength: int, c: ClassDef, pm: PropertyMeta)
    requires ctx.settings.rules == StandardRules(defaultLength) && SituationOf(ctx, c, pm).Present?
    ensures ctx.settings.rules.decide(pm, Deployed(ctx, pm), SituationOf(ctx, c, pm).info) ==
              Decide(pm, Deployed(ctx, pm), ctx.db.columns[Ref(ctx, c, pm)].info, defaultLength)
    ensures ctx.settings.rules.deployedType(Deployed(ctx, pm)) == DeployedType(Deployed(ctx, pm), defaultLength)
    ensures pm.kind != REFERENCE ==> Deployed(ctx, pm) == pm
  {
    hide Decide, DeployedType, KeyProperty;
  }

  /** References are never resized in place, so the branch that would link them again is dead. */
  lemma ReferencesNeverWiden(ctx: Deployment, defaultLength: int, c: ClassDef, pm: PropertyMeta)
    requires ctx.settings.rules == StandardRules(defaultLength) && Widens(ctx, c, pm)
    ensures pm.kind in {DATETIME, URL, GUID}
  {
    hide KeyProperty;
    WideningDecision(ctx, defaultLength, c, pm);
    InPlaceChangesWiden(pm, Deployed(ctx, pm), SituationOf(ctx, c, pm).info, defaultLength);
  }

  // Migrated data.

  /** The cells of the old column before the data part. */
  lemma OldCellsSaved(ctx: Deployment, parts: seq<seq<Change>>, engine: Engine, k: ColRef)
    requires Runs(ctx, parts, engine) && k in ctx.db.columns && Renamed(ctx, k)
    ensures Run(engine, ctx.db, Flatten(parts[..7])).Some? && SavedRef(ctx, k) in After(ctx, parts, engine, 7).columns
    ensures After(ctx, parts, engine, 7).columns[SavedRef(ctx, k)].cells == ctx.db.columns[k].cells
  {
    hide ValidModel, Emission, Run, Flatten, Renamed, SideRenamed, Written, Removing, Writing;
    EmissionCount(ctx, parts);
    UntilRenamed(ctx, parts, engine, k, 3);
    StageOf(ctx, parts, engine, 3);
    MovedBy(ctx, parts, engine, 3, k);
    HomeIsSafe(ctx, k);
    NothingMoves(ctx, parts, SavedRef(ctx, k));
    KeptFrom(ctx, parts, engine, 4, 7, SavedRef(ctx, k));
  }

  /** Only the copy of its class writes a migrated column. */
  lemma WriterIs(ctx: Deployment, c: ClassDef, pm: PropertyMeta, ch: Change)
    requires ValidModel(ctx) && IsProperty(ctx, c, pm) && Migrates(ctx, c, pm)
    requires ch in Bucketed(ctx, DataMigrate) && Ref(ctx, c, pm) in Writes(ch)
    ensures ch == CopyData(Table(ctx, c), AllCopies(ctx, c, Properties(ctx, c)))
  {
    hide BucketChanges, Properties, ValidModel;
    var d := FromClass(ctx, ctx.order, DataMigrate, ch);
    var ps := Properties(ctx, d);
    ClassKind(ctx, d, ps, DataMigrate, ch);
    assert ch.table == Table(ctx, c);
    SameTable(ctx, c, d);
    if ch in AllPropertyChanges(ctx, c, ps, DataMigrate) {
      var q := FromProperty(ctx, c, ps, DataMigrate, ch);
      BackfillAlone(ctx, c, pm, q, ch);
    }
  }

  lemma BackfillAlone(ctx: Deployment, c: ClassDef, pm: PropertyMeta, q: PropertyMeta, ch: Change)
    requires ValidModel(ctx) && IsProperty(ctx, c, pm) && IsProperty(ctx, c, q) && Migrates(ctx, c, pm)
    requires ch in PropertyChanges(ctx, c, q, DataMigrate)
    ensures Ref(ctx, c, pm) !in Writes(ch)
  {
    hide Properties, ValidModel, Script;
    assert ch == BackfillOf(ctx, c, q) && Writes(ch) == {Ref(ctx, c, q)};
    assert SituationOf(ctx, c, q).Absent? && SituationOf(ctx, c, pm).Present?;
    hide SituationOf, ColumnName;
    if ColumnName(ctx, pm) == ColumnName(ctx, q) {
      SameColumn(ctx, c, pm, q);
    }
  }

  ghost predicate DistinctTargets(cs: seq<Copy>) {
    forall i, j | 0 <= i < j < |cs| :: cs[i].target != cs[j].target
  }

  lemma CopiesDistinct(ctx: Deployment, c: ClassDef, cs: seq<Copy>)
    requires ValidModel(ctx) && IsClass(ctx, c) && cs == AllCopies(ctx, c, Properties(ctx, c))
    ensures DistinctTargets(cs)
  {
    hide Properties, ValidModel;
    ClassFacts(ctx, c);
    CopiesDistinctAmong(ctx, c, Properties(ctx, c));
  }

  lemma {:induction false} CopiesDistinctAmong(ctx: Deployment, c: ClassDef, ps: seq<PropertyMeta>)
    requires ValidModel(ctx) && IsClass(ctx, c) && DistinctProperties(ps) && forall p | p in ps :: p in Properties(ctx, c)
    ensures DistinctTargets(AllCopies(ctx, c, ps))
  {
    hide Properties, ValidModel, PropertyCopies, ColumnName, DistinctTargets;
    if ps != [] {
      var front, last := ps[..|ps| - 1], ps[|ps| - 1];
      CopiesDistinctAmong(ctx, c, front);
      var a, b := AllCopies(ctx, c, front), PropertyCopies(ctx, c, last);
      forall i, j | 0 <= i < |a| && 0 <= j < |b| ensures a[i].target != b[j].target {
        assert a[i] in a;
        assert b[j] in b;
        var pm := FromCopies(ctx, c, front, a[i]);
        CopyTarget(ctx, c, pm, a[i]);
        CopyTarget(ctx, c, last, b[j]);
        var l :| 0 <= l < |front| && front[l] == pm;
        assert ps[l].name != ps[|ps| - 1].name;
        if ColumnName(ctx, pm) == ColumnName(ctx, last) {
          SameColumn(ctx, c, pm, last);
        }
      }
      OneCopy(ctx, c, last);
      TargetsConcat(a, b);
    } else {
      NoTargets(AllCopies(ctx, c, ps));
    }
  }

  lemma NoTargets(cs: seq<Copy>)
    requires cs == []
    ensures DistinctTargets(cs)
  {
  }

  lemma TargetsConcat(a: seq<Copy>, b: seq<Copy>)
    requires DistinctTargets(a) && |b| <= 1
    requires forall i, j | 0 <= i < |a| && 0 <= j < |b| :: a[i].target != b[j].target
    ensures DistinctTargets(a + b)
  {
    var cs := a + b;
    forall i, j | 0 <= i < j < |cs| ensures cs[i].target != cs[j].target {
      if j >= |a| {
        assert cs[j] == b[j - |a|];
      }
    }
  }

  lemma OneCopy(ctx: Deployment, c: ClassDef, pm: PropertyMeta)
    ensures |PropertyCopies(ctx, c, pm)| <= 1
  {
    hide SituationOf, Deployed;
  }

  /** One update statement: a column it copies into holds what the statement found just before it ran. */
  lemma CopyAt(engine: Engine, db: Schema, plan: seq<Change>, t: string, cs: seq<Copy>, m: nat) returns (j: nat)
    requires WellFormed(db) && Run(engine, db, plan).Some? && CopyData(t, cs) in plan && m < |cs|
    requires DistinctTargets(cs)
    requires forall k :: !Removing(plan, k)
    requires forall i | 0 <= i < |plan| && ColRef(t, cs[m].target) in Writes(plan[i]) :: plan[i] == CopyData(t, cs)
    ensures j < |plan| && plan[j] == CopyData(t, cs) && Run(engine, db, plan[..j]).Some?
    ensures forall l | j < l < |plan| :: plan[l] != CopyData(t, cs)
    ensures var mid, r := Run(engine, db, plan[..j]).value, Run(engine, db, plan).value;
            && CopyReady(mid.columns.Keys, t, cs[m]) && ColRef(t, cs[m].target) in r.columns
            && r.columns[ColRef(t, cs[m].target)].cells == CopiedCells(mid.columns, t, cs[m], engine)
  {
    hide Run, Searched, CopiedCells;
    j := LastIndex(plan, CopyData(t, cs));
    var target := ColRef(t, cs[m].target);
    RunSplit(engine, db, plan, j);
    var before, after := plan[..j], plan[j + 1..];
    forall k ensures !Removing(after, k) {
      SplitMoves(plan, j, k);
    }
    var mid := Run(engine, db, before).value;
    NeedsOfCopy(t, cs, mid.columns.Keys);
    WithCopiesValue(mid.columns, t, cs, engine, m);
    forall l | 0 <= l < |after| ensures target !in Writes(after[l]) {
      assert after[l] == plan[j + 1 + l];
    }
    RunKeeps(engine, Apply(engine, mid, plan[j]), after, target);
  }

  /** A scalar is copied from cells that no change of the run touches. */
  lemma CopyRuns(engine: Engine, db: Schema, plan: seq<Change>, t: string, cs: seq<Copy>, m: nat)
    requires WellFormed(db) && Run(engine, db, plan).Some? && CopyData(t, cs) in plan && m < |cs|
    requires DistinctTargets(cs) && cs[m].find.None?
    requires forall k :: !Removing(plan, k)
    requires !Writing(plan, ColRef(t, cs[m].source)) && ColRef(t, cs[m].source) in db.columns
    requires forall i | 0 <= i < |plan| && ColRef(t, cs[m].target) in Writes(plan[i]) :: plan[i] == CopyData(t, cs)
    ensures var r := Run(engine, db, plan).value;
            && ColRef(t, cs[m].target) in r.columns
            && r.columns[ColRef(t, cs[m].target)].cells == CopyCells(db.columns[ColRef(t, cs[m].source)].cells, cs[m].cast, engine)
  {
    hide Run, DistinctTargets;
    var j := CopyAt(engine, db, plan, t, cs, m);
    var source := ColRef(t, cs[m].source);
    forall k ensures !Removing(plan[..j], k) {
      SplitMoves(plan, j, k);
    }
    SplitMoves(plan, j, source);
    RunKeeps(engine, db, plan[..j], source);
  }

  /** After the plan the new column of a migrated scalar property holds the old values,
      cast when the old type does not suit the property. */
  lemma ScalarsCopied(ctx: Deployment, parts: seq<seq<Change>>, engine: Engine, c: ClassDef, pm: PropertyMeta)
    requires Runs(ctx, parts, engine) && IsProperty(ctx, c, pm) && Migrates(ctx, c, pm) && Scalar(pm)
    ensures var r, k := Run(engine, ctx.db, Flatten(parts)).value, Ref(ctx, c, pm);
            && k in ctx.db.columns && k in r.columns
            && r.columns[k].cells == CopyCells(ctx.db.columns[k].cells, ctx.settings.rules.cast(pm, Deployed(ctx, pm), ctx.db.columns[k].info.dataType), engine)
  {
    hide ValidModel, Emission, Run, Flatten, Renamed, SideRenamed, Written, Removing, Writing, Properties;
    hide BucketChanges, SituationOf, Deployed;
    var k := Ref(ctx, c, pm);
    EmissionCount(ctx, parts);
    assert parts[..20] == parts;
    MigratedCopy(ctx, c, pm);
    RenamedRef(ctx, c, pm);
    OldCellsSaved(ctx, parts, engine, k);
    StageOf(ctx, parts, engine, 7);
    CopyPart(ctx, parts, engine, c, pm);
    StageOf(ctx, parts, engine, 8);
    forall l | 8 <= l < 20 ensures !Removing(parts[l], k) && !Writing(parts[l], k) {
      if Writing(parts[l], k) {
        PartWrites(ctx, parts, l, k);
      }
      if Removing(parts[l], k) {
        PartRemoves(ctx, parts, l, k);
        NotBothRenamed(ctx, k);
      }
    }
    KeptFrom(ctx, parts, engine, 8, 20, k);
  }

  lemma MigratedCopy(ctx: Deployment, c: ClassDef, pm: PropertyMeta)
    requires Migrates(ctx, c, pm) && Scalar(pm)
    ensures var k := Ref(ctx, c, pm);
            && k in ctx.db.columns && Table(ctx, c) in ctx.db.tables
            && PropertyCopies(ctx, c, pm) == [Copy(k.column, Saved(ctx, k.column), ctx.settings.rules.cast(pm, Deployed(ctx, pm), ctx.db.columns[k].info.dataType), None)]
  {
    hide Deployed;
  }

  /** The data part copies into the new column. */
  lemma CopyPart(ctx: Deployment, parts: seq<seq<Change>>, engine: Engine, c: ClassDef, pm: PropertyMeta)
    requires Runs(ctx, parts, engine) && IsProperty(ctx, c, pm) && Migrates(ctx, c, pm) && Scalar(pm)
    requires Run(engine, ctx.db, Flatten(parts[..7])).Some? && Run(engine, ctx.db, Flatten(parts[..8])).Some?
    requires SavedRef(ctx, Ref(ctx, c, pm)) in After(ctx, parts, engine, 7).columns
    ensures Ref(ctx, c, pm) in ctx.db.columns && Ref(ctx, c, pm) in After(ctx, parts, engine, 8).columns
    ensures After(ctx, parts, engine, 8).columns[Ref(ctx, c, pm)].cells ==
              CopyCells(After(ctx, parts, engine, 7).columns[SavedRef(ctx, Ref(ctx, c, pm))].cells,
                        ctx.settings.rules.cast(pm, Deployed(ctx, pm), ctx.db.columns[Ref(ctx, c, pm)].info.dataType), engine)
  {
    hide ValidModel, Emission, Run, Flatten, Renamed, SideRenamed, Written, Properties, BucketChanges;
    hide SituationOf, Deployed, Bucketed, Writes;
    var k, ps := Ref(ctx, c, pm), Properties(ctx, c);
    var t, cs := Table(ctx, c), AllCopies(ctx, c, ps);
    MigratedCopy(ctx, c, pm);
    var cp := PropertyCopies(ctx, c, pm)[0];
    ToCopies(ctx, c, ps, pm, cp);
    var m :| 0 <= m < |cs| && cs[m] == cp;
    CopiesDistinct(ctx, c, cs);
    CopyEmitted(ctx, parts, engine, c);
    StageOf(ctx, parts, engine, 7);
    forall x ensures !Removing(parts[7], x) {
      if Removing(parts[7], x) {
        PartRemoves(ctx, parts, 7, x);
      }
    }
    RenamedRef(ctx, c, pm);
    HomeIsSafe(ctx, k);
    if Writing(parts[7], SavedRef(ctx, k)) {
      PartWrites(ctx, parts, 7, SavedRef(ctx, k));
    }
    forall i | 0 <= i < |parts[7]| && k in Writes(parts[7][i]) ensures parts[7][i] == CopyData(t, cs) {
      WriterInPart(ctx, parts, c, pm, i);
    }
    hide ColumnName, Table, Saved, Removing, Writing;
    CopyRuns(engine, After(ctx, parts, engine, 7), parts[7], t, cs, m);
  }

  lemma WriterInPart(ctx: Deployment, parts: seq<seq<Change>>, c: ClassDef, pm: PropertyMeta, i: nat)
    requires ValidModel(ctx) && Emission(ctx, parts) && IsProperty(ctx, c, pm) && Migrates(ctx, c, pm) && |parts| == 20
    requires i < |parts[7]| && Ref(ctx, c, pm) in Writes(parts[7][i])
    ensures parts[7][i] == CopyData(Table(ctx, c), AllCopies(ctx, c, Properties(ctx, c)))
  {
    hide ValidModel, Properties, SituationOf, Writes, Bucketed, Emission, Emitted;
    PartIsBucket(ctx, parts, 7, i);
    EmittedAt(7);
    WriterIs(ctx, c, pm, parts[7][i]);
  }

  lemma CopyEmitted(ctx: Deployment, parts: seq<seq<Change>>, engine: Engine, c: ClassDef)
    requires Runs(ctx, parts, engine) && IsClass(ctx, c) && Table(ctx, c) in ctx.db.tables
    requires AllCopies(ctx, c, Properties(ctx, c)) != []
    ensures |parts| == 20 && CopyData(Table(ctx, c), AllCopies(ctx, c, Properties(ctx, c))) in parts[7]
  {
    hide BucketChanges, Properties, AllCopies, ClassChanges, Run, Flatten, ValidModel;
    CopyChange(ctx, c, Properties(ctx, c));
    ToBucket(ctx, ctx.order, DataMigrate, c, CopyData(Table(ctx, c), AllCopies(ctx, c, Properties(ctx, c))));
    PartMembers(ctx, parts, 7);
  }
}
