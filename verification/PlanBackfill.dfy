/** A plan that gives a root class its discriminator: each row ends with the name of its most
    derived class, told by the key columns as they were, exactly if the key of the root is not
    migrated in the same plan. The script runs before the copy of its class, so a key column that
    is made anew is still empty, and then no row is found in any other table. */
module PlanBackfill {
  import opened Wrappers
  import opened PropertyTypes
  import opened Database
  import opened Batches
  import opened DeployPlan
  import opened PlanShape
  import opened PlanColumns
  import opened PlanStages
  import opened PlanRuns
  import opened PlanFits
  import opened PlanParts
  import opened PlanExecutes
  import opened PlanData
  import opened InheritanceLevels
  import opened DiscriminatorBackfill
  import PlanFixpoint
  import Listing

  // Columns that are new hold nulls.

  ghost predicate AllNull(column: Column) {
    forall i | 0 <= i < |column.cells| :: column.cells[i] == Null
  }

  ghost predicate NoRenames(plan: seq<Change>) {
    forall i | 0 <= i < |plan| :: !plan[i].RenameColumn?
  }

  lemma FreshOne(engine: Engine, db: Schema, ch: Change, k: ColRef)
    requires WellFormed(db) && CanApply(db, ch) && k !in db.columns && !ch.RenameColumn? && k in Apply(engine, db, ch).columns
    ensures AllNull(Apply(engine, db, ch).columns[k])
  {
    match ch
    case CreateTable(t, cs) => FreshAmong(db.columns, t, cs, 0, engine.realise, k);
    case AddColumns(t, cs) => FreshAmong(db.columns, t, cs, db.tables[t], engine.realise, k);
    case CopyData(t, cs) =>
      NeedsOfCopy(t, cs, db.columns.Keys);
      WithCopiesEffect(db.columns, t, cs, engine);
    case _ =>
  }

  lemma FreshAmong(columns: map<ColRef, Column>, t: string, cs: seq<NewColumn>, rows: nat, realise: Realise, k: ColRef)
    requires DistinctNames(cs) && k !in columns && k in WithColumns(columns, t, cs, rows, realise)
    ensures AllNull(WithColumns(columns, t, cs, rows, realise)[k])
  {
    WithColumnsKeys(columns, t, cs, rows, realise);
    var n :| n in Names(cs) && k == ColRef(t, n);
    var i :| 0 <= i < |cs| && cs[i].name == n;
    WithColumnsInfo(columns, t, cs, rows, realise, i);
  }

  /** A column that a run without renames makes holds nulls unless something is written to it. */
  lemma {:induction false} RunFresh(engine: Engine, db: Schema, plan: seq<Change>, k: ColRef)
    requires WellFormed(db) && Run(engine, db, plan).Some? && k !in db.columns && NoRenames(plan) && !Writing(plan, k)
    requires k in Run(engine, db, plan).value.columns
    ensures AllNull(Run(engine, db, plan).value.columns[k])
    decreases |plan|
  {
    hide AllNull;
    if plan != [] {
      ApplyEffect(engine, db, plan[0]);
      TailFacts(plan, k);
      var next := Apply(engine, db, plan[0]);
      assert NoRenames(plan[1..]) by { NoneInTail(plan); }
      if k in next.columns {
        FreshOne(engine, db, plan[0], k);
        NothingRemoved(plan[1..], k);
        RunKeeps(engine, next, plan[1..], k);
        StaysNull(next.columns[k], Run(engine, db, plan).value.columns[k]);
      } else {
        RunFresh(engine, next, plan[1..], k);
      }
    }
  }

  lemma NoneInTail(plan: seq<Change>)
    requires plan != [] && NoRenames(plan)
    ensures NoRenames(plan[1..])
  {
  }

  lemma NothingRemoved(plan: seq<Change>, k: ColRef)
    requires NoRenames(plan)
    ensures !Removing(plan, k)
  {
  }

  lemma StaysNull(a: Column, b: Column)
    requires AllNull(a) && a.cells == b.cells
    ensures AllNull(b)
  {
  }

  lemma PartKind(ctx: Deployment, parts: seq<seq<Change>>, i: nat)
    requires Emission(ctx, parts) && 1 <= i < 20
    ensures |parts| == 20 && forall j | 0 <= j < |parts[i]| :: OfKind(Emitted()[i], parts[i][j])
  {
    hide Bucketed, OfKind, Emission, Emitted;
    EmissionCount(ctx, parts);
    forall j | 0 <= j < |parts[i]| ensures OfKind(Emitted()[i], parts[i][j]) {
      PartIsBucket(ctx, parts, i, j);
      BucketKind(ctx, Emitted()[i], parts[i][j]);
    }
  }

  /** A column that is not there when the renames are done holds nulls when the data part begins. */
  lemma FreshIsNull(ctx: Deployment, parts: seq<seq<Change>>, engine: Engine, k: ColRef)
    requires Runs(ctx, parts, engine) && !AfterRenames(ctx, k)
    requires Run(engine, ctx.db, Flatten(parts[..7])).Some? && k in After(ctx, parts, engine, 7).columns
    ensures AllNull(After(ctx, parts, engine, 7).columns[k])
  {
    hide ValidModel, Emission, Run, Flatten, AfterRenames, NewClassColumn, AllNull, Emitted;
    EmissionCount(ctx, parts);
    StageOf(ctx, parts, engine, 5);
    StageOf(ctx, parts, engine, 6);
    QuietPart(ctx, parts, 5);
    QuietPart(ctx, parts, 6);
    assert k !in After(ctx, parts, engine, 5).columns;
    hide Reached;
    if k in After(ctx, parts, engine, 6).columns {
      RunFresh(engine, After(ctx, parts, engine, 5), parts[5], k);
      NothingRemoved(parts[6], k);
      RunKeeps(engine, After(ctx, parts, engine, 6), parts[6], k);
      StaysNull(After(ctx, parts, engine, 6).columns[k], After(ctx, parts, engine, 7).columns[k]);
    } else {
      RunFresh(engine, After(ctx, parts, engine, 6), parts[6], k);
    }
  }

  lemma QuietPart(ctx: Deployment, parts: seq<seq<Change>>, i: nat)
    requires Emission(ctx, parts) && i in {5, 6}
    ensures |parts| == 20 && NoRenames(parts[i]) && forall k :: !Writing(parts[i], k)
  {
    hide Emission;
    PartKind(ctx, parts, i);
  }

  // The place of the script in the data part.

  /** No copy of the class is among the first j changes. */
  ghost predicate NoCopyBefore(ctx: Deployment, c: ClassDef, s: seq<Change>, j: nat) {
    j <= |s| && forall l | 0 <= l < j :: !(s[l].CopyData? && s[l].table == Table(ctx, c))
  }

  ghost predicate OnceAt(s: seq<Change>, b: Change, j: nat) {
    j < |s| && forall l | 0 <= l < |s| :: s[l] == b <==> l == j
  }

  lemma OnceAfter(a: seq<Change>, s: seq<Change>, z: seq<Change>, b: Change, j: nat)
    requires OnceAt(s, b, j) && b !in a && b !in z
    ensures OnceAt(a + s + z, b, |a| + j)
  {
    var t := a + s + z;
    forall l | 0 <= l < |t| ensures t[l] == b <==> l == |a| + j {
      if l < |a| {
        assert t[l] == a[l] && a[l] in a;
      } else if l < |a| + |s| {
        assert t[l] == s[l - |a|];
      } else {
        assert t[l] == z[l - |a| - |s|] && z[l - |a| - |s|] in z;
      }
    }
  }

  /** The data change of the discriminator. */
  function ScriptOf(ctx: Deployment, c: ClassDef): Change {
    BackfillOf(ctx, c, DiscriminatorProperty(ctx.settings))
  }

  lemma NoneAmong(ctx: Deployment, c: ClassDef, ps: seq<PropertyMeta>)
    requires forall p | p in ps :: p.name != ctx.settings.discriminator
    ensures AllPropertyChanges(ctx, c, ps, DataMigrate) == []
  {
    hide SituationOf, Script;
    var all := AllPropertyChanges(ctx, c, ps, DataMigrate);
    if all != [] {
      var pm := FromProperty(ctx, c, ps, DataMigrate, all[0]);
      assert false;
    }
  }

  lemma {:induction false} OnceAmong(ctx: Deployment, c: ClassDef, ps: seq<PropertyMeta>) returns (j: nat)
    requires IsRoot(ctx, c) && GetsBackfill(ctx, c, DiscriminatorProperty(ctx.settings)) && DistinctProperties(ps)
    requires forall p | p in ps && p.name == ctx.settings.discriminator :: p == DiscriminatorProperty(ctx.settings)
    requires DiscriminatorProperty(ctx.settings) in ps
    ensures OnceAt(AllPropertyChanges(ctx, c, ps, DataMigrate), ScriptOf(ctx, c), j)
    ensures forall ch | ch in AllPropertyChanges(ctx, c, ps, DataMigrate) :: ch.Backfill?
  {
    hide SituationOf, Script;
    var front, last, b := ps[..|ps| - 1], ps[|ps| - 1], ScriptOf(ctx, c);
    forall ch | ch in AllPropertyChanges(ctx, c, ps, DataMigrate) ensures ch.Backfill? {
      var pm := FromProperty(ctx, c, ps, DataMigrate, ch);
    }
    var before, here := AllPropertyChanges(ctx, c, front, DataMigrate), PropertyChanges(ctx, c, last, DataMigrate);
    assert AllPropertyChanges(ctx, c, ps, DataMigrate) == before + here;
    if last == DiscriminatorProperty(ctx.settings) {
      forall p | p in front ensures p.name != ctx.settings.discriminator {
        var l :| 0 <= l < |front| && front[l] == p;
        assert ps[l].name != ps[|ps| - 1].name;
      }
      NoneAmong(ctx, c, front);
      assert here == [b] && OnceAt(here, b, 0);
      OnceAfter(before, here, [], b, 0);
      assert before + here + [] == before + here;
      j := |before|;
    } else {
      assert DiscriminatorProperty(ctx.settings) in front;
      j := OnceAmong(ctx, c, front);
      assert GetsBackfill(ctx, c, last) ==> last.name == ctx.settings.discriminator;
      assert here == [];
      assert before + here == before;
    }
  }

  lemma {:induction false} ScriptPlace(ctx: Deployment, names: seq<string>, c: ClassDef) returns (j: nat)
    requires ValidModel(ctx) && IsClass(ctx, c) && IsRoot(ctx, c) && GetsBackfill(ctx, c, DiscriminatorProperty(ctx.settings))
    requires Listing.Distinct(names) && c.name in names && forall n | n in names :: n in ctx.classes
    ensures OnceAt(BucketChanges(ctx, names, DataMigrate), ScriptOf(ctx, c), j)
    ensures NoCopyBefore(ctx, c, BucketChanges(ctx, names, DataMigrate), j)
  {
    hide ValidModel, Properties, BackfillOf, ClassChanges, GetsBackfill;
    var front, n, b := names[..|names| - 1], names[|names| - 1], ScriptOf(ctx, c);
    var d := ctx.classes[n];
    assert Grounded(ctx, n);
    var before, here := BucketChanges(ctx, front, DataMigrate), ClassChanges(ctx, d, Properties(ctx, d), DataMigrate);
    assert BucketChanges(ctx, names, DataMigrate) == before + here;
    assert b.table == Table(ctx, c) by { TableOfScript(ctx, c); }
    if n == c.name {
      j := PlaceInClass(ctx, c);
      forall ch | ch in before ensures ch.table != Table(ctx, c) {
        OtherClass(ctx, front, c, ch);
      }
      OnceAfter(before, here, [], b, j);
      assert before + here + [] == before + here;
      j := |before| + j;
    } else {
      assert c.name in front;
      j := ScriptPlace(ctx, front, c);
      forall ch | ch in here ensures ch.table != Table(ctx, c) {
        ClassKind(ctx, d, Properties(ctx, d), DataMigrate, ch);
        if Table(ctx, d) == Table(ctx, c) {
          SameTable(ctx, c, d);
        }
      }
      assert [] + before + here == before + here;
      OnceAfter([], before, here, b, j);
    }
  }

  lemma TableOfScript(ctx: Deployment, c: ClassDef)
    ensures ScriptOf(ctx, c).table == Table(ctx, c)
  {
  }

  lemma OtherClass(ctx: Deployment, names: seq<string>, c: ClassDef, ch: Change)
    requires ValidModel(ctx) && IsClass(ctx, c) && c.name !in names && (forall n | n in names :: n in ctx.classes)
    requires ch in BucketChanges(ctx, names, DataMigrate)
    ensures ch.table != Table(ctx, c)
  {
    hide ValidModel, Properties, BucketChanges, ClassChanges;
    var d := FromClass(ctx, names, DataMigrate, ch);
    ClassKind(ctx, d, Properties(ctx, d), DataMigrate, ch);
    if Table(ctx, d) == Table(ctx, c) {
      SameTable(ctx, c, d);
    }
  }

  lemma OnceThere(s: seq<Change>, b: Change, j: nat)
    requires OnceAt(s, b, j)
    ensures j < |s| && s[j] == b
  {
  }

  lemma PlaceInClass(ctx: Deployment, c: ClassDef) returns (j: nat)
    requires ValidModel(ctx) && IsClass(ctx, c) && IsRoot(ctx, c) && GetsBackfill(ctx, c, DiscriminatorProperty(ctx.settings))
    ensures OnceAt(ClassChanges(ctx, c, Properties(ctx, c), DataMigrate), ScriptOf(ctx, c), j)
    ensures NoCopyBefore(ctx, c, ClassChanges(ctx, c, Properties(ctx, c), DataMigrate), j)
  {
    hide ValidModel, Properties, AllPropertyChanges, AllCopies, SituationOf, ScriptOf, DistinctProperties;
    hide KeyProperty, OnceAt;
    ClassFacts(ctx, c);
    DiscriminatorIn(ctx, c);
    var ps := Properties(ctx, c);
    var own, copies := AllPropertyChanges(ctx, c, ps, DataMigrate), AllCopies(ctx, c, ps);
    j := OnceAmong(ctx, c, ps);
    var copy := OneIf(Table(ctx, c) in ctx.db.tables && copies != [], CopyData(Table(ctx, c), copies));
    assert ClassChanges(ctx, c, ps, DataMigrate) == own + copy;
    assert own[j].Backfill? by { OnceThere(own, ScriptOf(ctx, c), j); }
    OnceThere(own, ScriptOf(ctx, c), j);
    OnceAfter([], own, copy, ScriptOf(ctx, c), j);
    assert [] + own + copy == own + copy;
    forall l | 0 <= l < j ensures (own + copy)[l].Backfill? {
      assert (own + copy)[l] == own[l] && own[l] in own;
    }
  }

  // What the script reads.

  function KeyName(ctx: Deployment, c: ClassDef): string {
    ctx.settings.naming.column(c.key)
  }

  /** The key of a row before the plan. */
  function OldKey(ctx: Deployment, c: ClassDef, i: nat): Cell {
    var k := ColRef(Table(ctx, c), KeyName(ctx, c));
    if k in ctx.db.columns && i < |ctx.db.columns[k].cells| then ctx.db.columns[k].cells[i] else Null
  }

  /** The key column of the root is made anew: it was of another type, or not there. */
  ghost predicate KeyIsNew(ctx: Deployment, c: ClassDef) {
    ColRef(Table(ctx, c), KeyName(ctx, c)) !in ctx.db.columns || (KeyProperty(ctx, c).Some? && Migrates(ctx, c, KeyProperty(ctx, c).value))
  }

  /** The key column of a subclass is never renamed nor written to: no property is stored in it. */
  lemma ChildKeyIsLeft(ctx: Deployment, c: ClassDef, n: string)
    requires ValidModel(ctx) && IsClass(ctx, c) && IsRoot(ctx, c) && StepsBelow(ctx, n, c.name).Some?
    ensures var k := ColRef(ctx.settings.naming.table(n), KeyName(ctx, c));
            !Renamed(ctx, k) && !Written(ctx, k) && !RenamedTo(ctx, k)
  {
    hide ValidModel, Properties, SituationOf, Renamed, Written, RenamedTo;
    DescendantsRoot(ctx, n, c.name);
    assert Grounded(ctx, n);
    var d := ctx.classes[n];
    RootKeyName(ctx, c, d);
    RootKeyName(ctx, c, c) by { RootFacts(ctx, c); }
    OwnNameNotRenamedTo(ctx, d, KeyProperty(ctx, c).value, Table(ctx, d));
    forall pm | IsProperty(ctx, d, pm) ensures ColumnName(ctx, pm) != KeyName(ctx, c) {
      NoKeyInSubclass(ctx, c, d, pm);
    }
    OtherColumnStays(ctx, d, KeyName(ctx, c));
    NotWritten(ctx, d, KeyName(ctx, c));
  }

  lemma NoKeyInSubclass(ctx: Deployment, c: ClassDef, d: ClassDef, pm: PropertyMeta)
    requires ValidModel(ctx) && IsClass(ctx, c) && IsRoot(ctx, c) && IsProperty(ctx, d, pm) && Root(ctx, d) == c && !IsRoot(ctx, d)
    ensures ColumnName(ctx, pm) != KeyName(ctx, c)
  {
    hide Properties, KeyDeclaredOnce, Resolvable, SuffixIsNew, WellFormed;
    ClassFacts(ctx, d);
    RootKeyName(ctx, c, d);
  }

  lemma NotWritten(ctx: Deployment, d: ClassDef, name: string)
    requires ValidModel(ctx) && IsClass(ctx, d) && forall pm | IsProperty(ctx, d, pm) :: ColumnName(ctx, pm) != name
    ensures !Written(ctx, ColRef(Table(ctx, d), name))
  {
    hide ValidModel, Properties, SituationOf, GetsBackfill, Migrates, Written;
    if Written(ctx, ColRef(Table(ctx, d), name)) {
      var e, pm := WrittenBy(ctx, ColRef(Table(ctx, d), name));
      SameTable(ctx, d, e);
    }
  }

  /** The key column of the root is left alone unless it is new. */
  lemma RootKeyIsLeft(ctx: Deployment, c: ClassDef)
    requires ValidModel(ctx) && IsClass(ctx, c) && IsRoot(ctx, c)
    ensures var k := ColRef(Table(ctx, c), KeyName(ctx, c));
            if KeyIsNew(ctx, c) then !AfterRenames(ctx, k) else k in ctx.db.columns && !Renamed(ctx, k) && !Written(ctx, k)
  {
    hide ValidModel, Properties, SituationOf, Renamed, Written, RenamedTo, KeyProperty;
    ClassFacts(ctx, c);
    RootKeyName(ctx, c, c) by { RootFacts(ctx, c); }
    var pm := KeyProperty(ctx, c).value;
    KeyColumnIs(ctx, c, pm);
    OwnNameNotRenamedTo(ctx, c, pm, Table(ctx, c));
    RenamedRef(ctx, c, pm);
    if Written(ctx, Ref(ctx, c, pm)) && Ref(ctx, c, pm) in ctx.db.columns {
      WrittenIsNew(ctx, Ref(ctx, c, pm));
    }
  }

  lemma KeyColumnIs(ctx: Deployment, c: ClassDef, pm: PropertyMeta)
    requires ValidModel(ctx) && IsClass(ctx, c) && IsRoot(ctx, c) && KeyProperty(ctx, c) == Some(pm) && pm.name == c.key
    ensures pm in Properties(ctx, c) && Ref(ctx, c, pm) == ColRef(Table(ctx, c), KeyName(ctx, c))
  {
    hide Properties, ValidModel;
    ClassFacts(ctx, c);
  }

  /** Only the copy of its class writes to a key column that is made anew. */
  lemma KeyWriter(ctx: Deployment, c: ClassDef, ch: Change)
    requires ValidModel(ctx) && IsClass(ctx, c) && IsRoot(ctx, c) && KeyIsNew(ctx, c)
    requires ch in Bucketed(ctx, DataMigrate) && ColRef(Table(ctx, c), KeyName(ctx, c)) in Writes(ch)
    ensures ch.CopyData? && ch.table == Table(ctx, c)
  {
    hide ValidModel, Properties, SituationOf, Bucketed, Renamed, GetsBackfill, Written, KeyProperty;
    ClassFacts(ctx, c);
    RootKeyName(ctx, c, c) by { RootFacts(ctx, c); }
    var pm := KeyProperty(ctx, c).value;
    KeyColumnIs(ctx, c, pm);
    if Migrates(ctx, c, pm) {
      WriterIs(ctx, c, pm, ch);
    } else {
      WritesShape(ctx, DataMigrate, ch, Ref(ctx, c, pm));
      var d, q := WrittenBy(ctx, Ref(ctx, c, pm));
      SameTable(ctx, c, d);
      SameColumn(ctx, c, pm, q);
      NoBackfillOfKey(ctx, c, pm);
      assert false;
    }
  }

  lemma NoBackfillOfKey(ctx: Deployment, c: ClassDef, pm: PropertyMeta)
    requires ValidModel(ctx) && IsClass(ctx, c) && KeyProperty(ctx, c) == Some(pm)
    ensures !GetsBackfill(ctx, c, pm)
  {
    hide Properties, ValidModel, SituationOf;
    ClassFacts(ctx, c);
  }

  /** Only the script writes to a new discriminator column. */
  lemma DiscriminatorWriter(ctx: Deployment, c: ClassDef, ch: Change)
    requires ValidModel(ctx) && IsClass(ctx, c) && IsRoot(ctx, c) && GetsBackfill(ctx, c, DiscriminatorProperty(ctx.settings))
    requires ch in Bucketed(ctx, DataMigrate) && Ref(ctx, c, DiscriminatorProperty(ctx.settings)) in Writes(ch)
    ensures ch == ScriptOf(ctx, c)
  {
    hide ValidModel, Properties, SituationOf, BucketChanges, ClassChanges, Script, PropertyCopies, PropertyChanges;
    var k := Ref(ctx, c, DiscriminatorProperty(ctx.settings));
    var d := FromClass(ctx, ctx.order, DataMigrate, ch);
    ClassKind(ctx, d, Properties(ctx, d), DataMigrate, ch);
    assert ch.table == Table(ctx, c);
    SameTable(ctx, c, d);
    DiscriminatorIn(ctx, c);
    InClass(ctx, c, ch);
    if ch.CopyData? {
      var cs := AllCopies(ctx, c, Properties(ctx, c));
      var i :| 0 <= i < |cs| && k == ColRef(Table(ctx, c), cs[i].target);
      assert cs[i] in cs;
      var pm := FromCopies(ctx, c, Properties(ctx, c), cs[i]);
      CopyWrites(ctx, c, pm, cs[i]);
      SameColumn(ctx, c, pm, DiscriminatorProperty(ctx.settings));
      NotBoth(ctx, c, pm);
      assert false;
    } else {
      var pm := FromProperty(ctx, c, Properties(ctx, c), DataMigrate, ch);
      BackfillWrites(ctx, c, pm, ch);
      SameColumn(ctx, c, pm, DiscriminatorProperty(ctx.settings));
      FillIs(ctx, c, pm, ch);
    }
  }

  lemma NotBoth(ctx: Deployment, c: ClassDef, pm: PropertyMeta)
    ensures !(GetsBackfill(ctx, c, pm) && Migrates(ctx, c, pm))
  {
  }

  lemma FillIs(ctx: Deployment, c: ClassDef, pm: PropertyMeta, ch: Change)
    requires ch in PropertyChanges(ctx, c, pm, DataMigrate)
    ensures ch == BackfillOf(ctx, c, pm)
  {
    hide SituationOf, Script;
  }

  lemma InClass(ctx: Deployment, c: ClassDef, ch: Change)
    requires ch in ClassChanges(ctx, c, Properties(ctx, c), DataMigrate)
    ensures if ch.CopyData? then ch == CopyData(Table(ctx, c), AllCopies(ctx, c, Properties(ctx, c)))
            else ch in AllPropertyChanges(ctx, c, Properties(ctx, c), DataMigrate)
  {
    hide Properties, AllCopies, Script, SituationOf;
    if ch in AllPropertyChanges(ctx, c, Properties(ctx, c), DataMigrate) {
      var pm := FromProperty(ctx, c, Properties(ctx, c), DataMigrate, ch);
    }
  }

  // The rows.

  /** Rows found in the same tables have the same most derived classes. */
  lemma SameMostDerived(ctx: Deployment, keyName: string, root: string, a: Columns, key: Cell, b: Columns, other: Cell)
    requires forall n | StepsBelow(ctx, n, root).Some? :: InTable(ctx, a, keyName, key, n) <==> InTable(ctx, b, keyName, other, n)
    ensures Nested(ctx, a, keyName, root, key) <==> Nested(ctx, b, keyName, root, other)
    ensures SiblingsApart(ctx, a, keyName, root, key) <==> SiblingsApart(ctx, b, keyName, root, other)
    ensures forall n :: MostDerived(ctx, a, keyName, root, key, n) <==> MostDerived(ctx, b, keyName, root, other, n)
  {
    hide InTable;
    assert forall n :: Holds(ctx, a, keyName, root, key, n) <==> Holds(ctx, b, keyName, root, other, n);
  }

  /** A row found in no other table belongs to the root and to nothing else. */
  lemma OnlyRoot(ctx: Deployment, keyName: string, root: string, keys: Columns, key: Cell)
    requires forall n | StepsBelow(ctx, n, root).Some? :: !InTable(ctx, keys, keyName, key, n)
    ensures Nested(ctx, keys, keyName, root, key) && SiblingsApart(ctx, keys, keyName, root, key)
    ensures forall n :: MostDerived(ctx, keys, keyName, root, key, n) ==> n == root
  {
    hide InTable;
    assert forall n :: Holds(ctx, keys, keyName, root, key, n) ==> n == root;
  }

  /** The state before the script: the plan's first seven parts and part of the data part. */
  ghost predicate Before(ctx: Deployment, parts: seq<seq<Change>>, engine: Engine, c: ClassDef, j: nat, mid: Schema) {
    && Runs(ctx, parts, engine) && |parts| == 20 && IsClass(ctx, c) && IsRoot(ctx, c) && GetsBackfill(ctx, c, DiscriminatorProperty(ctx.settings))
    && parts[7] == BucketChanges(ctx, ctx.order, DataMigrate)
    && OnceAt(parts[7], ScriptOf(ctx, c), j) && NoCopyBefore(ctx, c, parts[7], j)
    && Run(engine, ctx.db, Flatten(parts[..7])).Some? && WellFormed(After(ctx, parts, engine, 7))
    && Run(engine, After(ctx, parts, engine, 7), parts[7][..j]) == Some(mid) && WellFormed(mid)
  }

  lemma DataPart(ctx: Deployment, parts: seq<seq<Change>>)
    requires Emission(ctx, parts)
    ensures |parts| == 20 && parts[7] == BucketChanges(ctx, ctx.order, DataMigrate)
    ensures Bucketed(ctx, DataMigrate) == parts[7]
  {
    hide BucketChanges, DropList;
    assert Emitted()[7] == DataMigrate;
  }

  /** What a column not written before the script holds when it runs. */
  lemma UnwrittenBefore(ctx: Deployment, parts: seq<seq<Change>>, engine: Engine, c: ClassDef, j: nat, mid: Schema, k: ColRef)
    requires Before(ctx, parts, engine, c, j, mid) && forall l | 0 <= l < j :: k !in Writes(parts[7][l])
    ensures k in mid.columns <==> k in After(ctx, parts, engine, 7).columns
    ensures k in mid.columns ==> mid.columns[k].cells == After(ctx, parts, engine, 7).columns[k].cells
  {
    hide Run, ValidModel, Emission, Flatten, Writes, BucketChanges, OnceAt, GetsBackfill, WellFormed, ScriptOf;
    var db, s := After(ctx, parts, engine, 7), parts[7][..j];
    QuietData(ctx, parts, engine, c, j, mid);
    forall l | 0 <= l < |s| ensures k !in Writes(s[l]) {
      assert s[l] == parts[7][l];
    }
    forall x ensures !(Creating(s, x) && Removing(s, x)) {
      StillThere(s, x);
    }
    StillThere(s, k);
    RunKeys(engine, db, s);
    if k in db.columns {
      RunKeeps(engine, db, s, k);
    }
  }

  lemma QuietData(ctx: Deployment, parts: seq<seq<Change>>, engine: Engine, c: ClassDef, j: nat, mid: Schema)
    requires Before(ctx, parts, engine, c, j, mid)
    ensures NothingMoved(parts[7][..j]) && NothingMoved(parts[7][j + 1..])
  {
    hide Run, Flatten, BucketChanges, GetsBackfill, WellFormed, ScriptOf, ValidModel, Emission;
    PartKind(ctx, parts, 7);
    assert Emitted()[7] == DataMigrate;
    assert forall l | 0 <= l < |parts[7]| :: parts[7][l].Backfill? || parts[7][l].CopyData?;
    assert forall l | 0 <= l < j :: parts[7][..j][l] == parts[7][l];
    var after := parts[7][j + 1..];
    assert forall l | 0 <= l < |after| :: after[l] == parts[7][j + 1 + l];
  }

  ghost predicate NothingMoved(plan: seq<Change>) {
    forall i | 0 <= i < |plan| :: Creates(plan[i]) == {} && Removes(plan[i]) == {}
  }

  lemma StillThere(plan: seq<Change>, k: ColRef)
    requires NothingMoved(plan)
    ensures !Creating(plan, k) && !Removing(plan, k)
  {
  }

  /** A key column of a subclass table shows the script the rows it showed before the plan. */
  lemma ChildKeyBefore(ctx: Deployment, parts: seq<seq<Change>>, engine: Engine, c: ClassDef, j: nat, mid: Schema, key: Cell, n: string)
    requires Before(ctx, parts, engine, c, j, mid) && StepsBelow(ctx, n, c.name).Some?
    ensures InTable(ctx, mid.columns, KeyName(ctx, c), key, n) <==> InTable(ctx, ctx.db.columns, KeyName(ctx, c), key, n)
  {
    hide ValidModel, Emission, Run, Flatten, Written, Renamed, RenamedTo, BucketChanges, OnceAt, GetsBackfill;
    hide ScriptOf, Writes, WellFormed;
    var k := ColRef(ctx.settings.naming.table(n), KeyName(ctx, c));
    ChildKeyIsLeft(ctx, c, n);
    NothingMoves(ctx, parts, k);
    forall l | 0 <= l < j ensures k !in Writes(parts[7][l]) {
      assert !Writing(parts[7], k);
    }
    UnwrittenBefore(ctx, parts, engine, c, j, mid, k);
    if k in ctx.db.columns {
      OldCells(ctx, parts, engine, k);
    } else if k in mid.columns {
      FreshIsNull(ctx, parts, engine, k);
    }
  }

  /** An old column that is neither renamed nor written holds its cells when the data part begins. */
  lemma OldCells(ctx: Deployment, parts: seq<seq<Change>>, engine: Engine, k: ColRef)
    requires Runs(ctx, parts, engine) && k in ctx.db.columns && !Renamed(ctx, k) && !Written(ctx, k)
    requires Run(engine, ctx.db, Flatten(parts[..7])).Some?
    ensures k in After(ctx, parts, engine, 7).columns && After(ctx, parts, engine, 7).columns[k].cells == ctx.db.columns[k].cells
  {
    hide ValidModel, Emission, Run, Flatten, Renamed, Written, Removing, Writing;
    EmissionCount(ctx, parts);
    assert parts[..0] == [];
    StartIs(ctx, engine);
    StageOf(ctx, parts, engine, 0);
    NothingMoves(ctx, parts, k);
    KeptFrom(ctx, parts, engine, 0, 7, k);
  }

  /** The key the script reads: the old one, or null where the column is made anew. */
  lemma RootKeyBefore(ctx: Deployment, parts: seq<seq<Change>>, engine: Engine, c: ClassDef, j: nat, mid: Schema, i: nat)
    requires Before(ctx, parts, engine, c, j, mid) && i < ctx.db.tables[Table(ctx, c)]
    ensures var k := ColRef(Table(ctx, c), KeyName(ctx, c));
            k in mid.columns ==> i < |mid.columns[k].cells| && mid.columns[k].cells[i] == if KeyIsNew(ctx, c) then Null else OldKey(ctx, c, i)
  {
    hide ValidModel, Emission, Run, Flatten, Written, Renamed, BucketChanges, OnceAt, GetsBackfill, ScriptOf;
    hide Writes, KeyIsNew, AfterRenames;
    var k := ColRef(Table(ctx, c), KeyName(ctx, c));
    RootKeyIsLeft(ctx, c);
    DataPart(ctx, parts);
    forall l | 0 <= l < j ensures k !in Writes(parts[7][l]) {
      if k in Writes(parts[7][l]) {
        assert parts[7][l] in Bucketed(ctx, DataMigrate);
        if KeyIsNew(ctx, c) {
          KeyWriter(ctx, c, parts[7][l]);
        } else {
          WritesShape(ctx, DataMigrate, parts[7][l], k);
        }
        assert false;
      }
    }
    UnwrittenBefore(ctx, parts, engine, c, j, mid, k);
    if k in mid.columns {
      RowsStay(ctx, parts, engine, c, mid, j);
      if KeyIsNew(ctx, c) {
        FreshIsNull(ctx, parts, engine, k);
      } else {
        OldCells(ctx, parts, engine, k);
      }
    }
  }

  /** The table has as many rows as it had. */
  lemma RowsStay(ctx: Deployment, parts: seq<seq<Change>>, engine: Engine, c: ClassDef, mid: Schema, j: nat)
    requires Before(ctx, parts, engine, c, j, mid)
    ensures var t := Table(ctx, c); t in ctx.db.tables && t in mid.tables && mid.tables[t] == ctx.db.tables[t]
    ensures forall k | k in mid.columns && k.table == Table(ctx, c) :: |mid.columns[k].cells| == ctx.db.tables[Table(ctx, c)]
  {
    hide ValidModel, Emission, Run, Flatten, BucketChanges, OnceAt, ScriptOf;
    var t := Table(ctx, c);
    PrefixRows(ctx, parts, engine, 7, t);
    RunRows(engine, After(ctx, parts, engine, 7), parts[7][..j], t);
  }

  lemma {:induction false} RunRows(engine: Engine, db: Schema, plan: seq<Change>, t: string)
    requires WellFormed(db) && Run(engine, db, plan).Some? && t in db.tables
    ensures var r := Run(engine, db, plan).value; t in r.tables && r.tables[t] == db.tables[t]
    decreases |plan|
  {
    if plan != [] {
      ApplyEffect(engine, db, plan[0]);
      RunRows(engine, Apply(engine, db, plan[0]), plan[1..], t);
    }
  }

  lemma PrefixRows(ctx: Deployment, parts: seq<seq<Change>>, engine: Engine, i: nat, t: string)
    requires WellFormed(ctx.db) && t in ctx.db.tables && i <= |parts| && Run(engine, ctx.db, Flatten(parts[..i])).Some?
    ensures var db := After(ctx, parts, engine, i); t in db.tables && db.tables[t] == ctx.db.tables[t]
  {
    RunRows(engine, ctx.db, Flatten(parts[..i]), t);
  }

  /** The state before the script. */
  lemma ScriptBegins(ctx: Deployment, parts: seq<seq<Change>>, engine: Engine, c: ClassDef) returns (j: nat, mid: Schema)
    requires Runs(ctx, parts, engine) && IsClass(ctx, c) && IsRoot(ctx, c) && GetsBackfill(ctx, c, DiscriminatorProperty(ctx.settings))
    ensures Before(ctx, parts, engine, c, j, mid) && CanApply(mid, ScriptOf(ctx, c))
    ensures Run(engine, ctx.db, Flatten(parts[..8])).Some?
    ensures WellFormed(Apply(engine, mid, ScriptOf(ctx, c)))
    ensures Run(engine, Apply(engine, mid, ScriptOf(ctx, c)), parts[7][j + 1..]) == Run(engine, ctx.db, Flatten(parts[..8]))
  {
    hide ValidModel, Emission, Run, Flatten, BucketChanges, GetsBackfill, ScriptOf, Reached;
    DataPart(ctx, parts);
    StageOf(ctx, parts, engine, 7);
    j := ScriptPlace(ctx, ctx.order, c);
    OnceThere(parts[7], ScriptOf(ctx, c), j);
    RunSplit(engine, After(ctx, parts, engine, 7), parts[7], j);
    mid := Run(engine, After(ctx, parts, engine, 7), parts[7][..j]).value;
  }

  /** The discriminator is empty when the script runs. */
  lemma EmptyBefore(ctx: Deployment, parts: seq<seq<Change>>, engine: Engine, c: ClassDef, j: nat, mid: Schema, i: nat)
    requires Before(ctx, parts, engine, c, j, mid) && i < ctx.db.tables[Table(ctx, c)]
    ensures var k := Ref(ctx, c, DiscriminatorProperty(ctx.settings));
            k in mid.columns ==> i < |mid.columns[k].cells| && mid.columns[k].cells[i] == Null
  {
    hide ValidModel, Emission, Run, Flatten, BucketChanges, ScriptOf, Writes, Properties, AfterRenames, Renamed;
    var d := DiscriminatorProperty(ctx.settings);
    var k := Ref(ctx, c, d);
    DataPart(ctx, parts);
    DiscriminatorIn(ctx, c);
    forall l | 0 <= l < j ensures k !in Writes(parts[7][l]) {
      if k in Writes(parts[7][l]) {
        assert parts[7][l] in Bucketed(ctx, DataMigrate);
        DiscriminatorWriter(ctx, c, parts[7][l]);
        assert false;
      }
    }
    UnwrittenBefore(ctx, parts, engine, c, j, mid, k);
    RowsStay(ctx, parts, engine, c, mid, j);
    if k in mid.columns {
      AbsentBefore(ctx, c, d);
      FreshIsNull(ctx, parts, engine, k);
    }
  }

  lemma AbsentBefore(ctx: Deployment, c: ClassDef, pm: PropertyMeta)
    requires ValidModel(ctx) && IsProperty(ctx, c, pm) && SituationOf(ctx, c, pm).Absent?
    ensures !AfterRenames(ctx, Ref(ctx, c, pm))
  {
    hide ValidModel, Properties, RenamedTo;
    OwnNameNotRenamedTo(ctx, c, pm, Table(ctx, c));
  }

  /** The script on one row of the plan: the most derived class told by the old keys, or the root
      where the key column is new. */
  lemma ScriptInPlan(ctx: Deployment, parts: seq<seq<Change>>, engine: Engine, c: ClassDef, j: nat, mid: Schema, i: nat)
    requires Before(ctx, parts, engine, c, j, mid) && CanApply(mid, ScriptOf(ctx, c)) && i < ctx.db.tables[Table(ctx, c)]
    requires Nested(ctx, ctx.db.columns, KeyName(ctx, c), c.name, OldKey(ctx, c, i)) && SiblingsApart(ctx, ctx.db.columns, KeyName(ctx, c), c.name, OldKey(ctx, c, i))
    ensures var k, x := Ref(ctx, c, DiscriminatorProperty(ctx.settings)), Apply(engine, mid, ScriptOf(ctx, c));
            && k in x.columns && i < |x.columns[k].cells| && x.columns[k].cells[i].Value?
            && if KeyIsNew(ctx, c) then x.columns[k].cells[i].text == c.name
               else MostDerived(ctx, ctx.db.columns, KeyName(ctx, c), c.name, OldKey(ctx, c, i), x.columns[k].cells[i].text)
  {
    hide Runs, Run, Flatten, BucketChanges, GetsBackfill, KeyIsNew, OldKey, Nested, SiblingsApart;
    hide MostDerived, InTable, WellFormed, NoCopyBefore, OnceAt;
    var d := DiscriminatorProperty(ctx.settings);
    var k, keyName := Ref(ctx, c, d), KeyName(ctx, c);
    ScriptReads(ctx, c, mid);
    EmptyBefore(ctx, parts, engine, c, j, mid, i);
    RootKeyBefore(ctx, parts, engine, c, j, mid, i);
    RowsStay(ctx, parts, engine, c, mid, j);
    var key := mid.columns[ColRef(Table(ctx, c), keyName)].cells[i];
    forall n | StepsBelow(ctx, n, c.name).Some? ensures InTable(ctx, mid.columns, keyName, key, n) <==> InTable(ctx, ctx.db.columns, keyName, key, n) {
      ChildKeyBefore(ctx, parts, engine, c, j, mid, key, n);
    }
    if KeyIsNew(ctx, c) {
      forall n | StepsBelow(ctx, n, c.name).Some? ensures !InTable(ctx, mid.columns, keyName, Null, n) {
        NullIsNowhere(ctx, mid.columns, keyName, n);
      }
      OnlyRoot(ctx, keyName, c.name, mid.columns, Null);
    } else {
      SameMostDerived(ctx, keyName, c.name, mid.columns, key, ctx.db.columns, key);
    }
    BackfillIsExact(ctx, engine, mid, c, d, i);
    SameRows(engine, mid, ScriptOf(ctx, c), k);
  }

  lemma NullIsNowhere(ctx: Deployment, keys: Columns, keyName: string, n: string)
    ensures !InTable(ctx, keys, keyName, Null, n)
  {
  }

  lemma ScriptReads(ctx: Deployment, c: ClassDef, mid: Schema)
    requires CanApply(mid, ScriptOf(ctx, c))
    ensures Ref(ctx, c, DiscriminatorProperty(ctx.settings)) in mid.columns && ColRef(Table(ctx, c), KeyName(ctx, c)) in mid.columns
  {
    hide Script;
  }

  lemma SameRows(engine: Engine, db: Schema, ch: Change, k: ColRef)
    requires WellFormed(db) && CanApply(db, ch) && ch.Backfill? && k in db.columns
    ensures var r := Apply(engine, db, ch); k in r.columns && |r.columns[k].cells| == |db.columns[k].cells|
  {
    ApplyEffect(engine, db, ch);
  }

  /** After the plan, row by row: the name of the most derived class told by the key columns as they
      were, if and only if the key column of the root is not made anew, or the row belongs to the
      root alone; with a new key column every row gets the name of the root. */
  lemma PlanBackfillExactly(ctx: Deployment, parts: seq<seq<Change>>, engine: Engine, c: ClassDef, i: nat)
    requires Runs(ctx, parts, engine) && IsClass(ctx, c) && IsRoot(ctx, c)
    requires GetsBackfill(ctx, c, DiscriminatorProperty(ctx.settings)) && i < ctx.db.tables[Table(ctx, c)]
    requires Nested(ctx, ctx.db.columns, KeyName(ctx, c), c.name, OldKey(ctx, c, i)) && SiblingsApart(ctx, ctx.db.columns, KeyName(ctx, c), c.name, OldKey(ctx, c, i))
    ensures var r, k := Run(engine, ctx.db, Flatten(parts)).value, Ref(ctx, c, DiscriminatorProperty(ctx.settings));
            && k in r.columns && i < |r.columns[k].cells| && r.columns[k].cells[i].Value?
            && var n := r.columns[k].cells[i].text;
               && (KeyIsNew(ctx, c) ==> n == c.name)
               && (MostDerived(ctx, ctx.db.columns, KeyName(ctx, c), c.name, OldKey(ctx, c, i), n) <==>
                     !KeyIsNew(ctx, c) || MostDerived(ctx, ctx.db.columns, KeyName(ctx, c), c.name, OldKey(ctx, c, i), c.name))
  {
    hide ValidModel, Emission, Run, Flatten, BucketChanges, GetsBackfill, KeyIsNew, OldKey, Nested;
    hide SiblingsApart, MostDerived, ScriptOf, Properties, Renamed, SideRenamed, Reached;
    var d := DiscriminatorProperty(ctx.settings);
    var k := Ref(ctx, c, d);
    var j, mid := ScriptBegins(ctx, parts, engine, c);
    ScriptInPlan(ctx, parts, engine, c, j, mid, i);
    assert parts[..20] == parts by { EmissionCount(ctx, parts); }
    AfterScript(ctx, parts, engine, c, j, mid, k);
  }

  /** Nothing touches the discriminator after the script. */
  lemma AfterScript(ctx: Deployment, parts: seq<seq<Change>>, engine: Engine, c: ClassDef, j: nat, mid: Schema, k: ColRef)
    requires Before(ctx, parts, engine, c, j, mid) && CanApply(mid, ScriptOf(ctx, c)) && k == Ref(ctx, c, DiscriminatorProperty(ctx.settings))
    requires Run(engine, ctx.db, Flatten(parts[..8])).Some? && WellFormed(Apply(engine, mid, ScriptOf(ctx, c)))
    requires Run(engine, Apply(engine, mid, ScriptOf(ctx, c)), parts[7][j + 1..]) == Run(engine, ctx.db, Flatten(parts[..8]))
    requires k in Apply(engine, mid, ScriptOf(ctx, c)).columns
    ensures |parts| == 20 && Run(engine, ctx.db, Flatten(parts[..20])).Some? && k in After(ctx, parts, engine, 20).columns
    ensures After(ctx, parts, engine, 20).columns[k].cells == Apply(engine, mid, ScriptOf(ctx, c)).columns[k].cells
  {
    hide ValidModel, Emission, Run, Flatten, BucketChanges, ScriptOf, Properties, Renamed, SideRenamed;
    hide Written, Writes, Apply;
    DataPart(ctx, parts);
    DiscriminatorIn(ctx, c);
    QuietData(ctx, parts, engine, c, j, mid);
    var rest := parts[7][j + 1..];
    forall l | 0 <= l < |rest| ensures k !in Writes(rest[l]) {
      assert rest[l] == parts[7][j + 1 + l];
      if k in Writes(rest[l]) {
        assert rest[l] in Bucketed(ctx, DataMigrate);
        DiscriminatorWriter(ctx, c, rest[l]);
        assert false;
      }
    }
    StillThere(rest, k);
    RunKeeps(engine, Apply(engine, mid, ScriptOf(ctx, c)), rest, k);
    forall l | 8 <= l < 20 ensures !Removing(parts[l], k) && !Writing(parts[l], k) {
      if Writing(parts[l], k) {
        PartWrites(ctx, parts, l, k);
      }
      if Removing(parts[l], k) {
        PartRemoves(ctx, parts, l, k);
        PlanFixpoint.NotASide(ctx, c, k);
      }
    }
    KeptFrom(ctx, parts, engine, 8, 20, k);
  }
}
