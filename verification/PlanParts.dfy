/** Bucket by bucket: each change of the class part of a plan fits its stage. Keys are
    dropped and types restated before anything moves, columns renamed and enlarged while
    they are there, new columns added under names that are free by then; data, indices and
    foreign keys find their columns, and primary keys are made last. The changes of relation
    tables are dealt with beside the main theorem. */
module PlanParts {
  import opened Wrappers
  import opened PropertyTypes
  import opened Database
  import opened DeployPlan
  import opened PlanShape
  import opened PlanColumns
  import opened PlanRuns
  import opened PlanFits
  import InheritanceLevels

  lemma PresentFacts(ctx: Deployment, c: ClassDef, pm: PropertyMeta)
    requires SituationOf(ctx, c, pm).Present?
    ensures Ref(ctx, c, pm) in ctx.db.columns && Table(ctx, c) in ctx.db.tables
  {
  }

  lemma KeyChangesFit(ctx: Deployment, b: Bucket, ch: Change)
    requires b in {CleanPK, DropPK} && ch in Bucketed(ctx, b)
    ensures Fits(ctx, 1, ch) && Fits(ctx, 2, ch)
  {
    hide BucketChanges, Properties, IsKey;
    var c, pm := FromBucket(ctx, b, ch);
    PresentFacts(ctx, c, pm);
  }

  lemma RenameFits(ctx: Deployment, ch: Change)
    requires ValidModel(ctx) && ch in Bucketed(ctx, RenameColumns)
    ensures Fits(ctx, 3, ch)
  {
    hide Bucketed, Renamed, ValidModel;
    RenamesShape(ctx, ch);
    var k := ColRef(ch.table, ch.column);
    RenamedIsOld(ctx, k);
    SavedIsNew(ctx, k);
    assert Creates(ch) == {SavedRef(ctx, k)};
  }

  lemma EnlargeFits(ctx: Deployment, ch: Change)
    requires ValidModel(ctx) && ch in Bucketed(ctx, ModifyTypes)
    ensures Fits(ctx, 4, ch)
  {
    hide BucketChanges, Properties, ValidModel, Renamed;
    var c, pm := FromBucket(ctx, ModifyTypes, ch);
    PresentFacts(ctx, c, pm);
    RenamedRef(ctx, c, pm);
    assert Needs(ch) == {Ref(ctx, c, pm)};
  }

  // New tables and columns.

  /** A new column takes the name under which its property is looked up. */
  lemma NewNameIsLookedUp(ctx: Deployment, c: ClassDef, pm: PropertyMeta)
    requires ValidModel(ctx) && DiscriminatorReady(ctx) && IsProperty(ctx, c, pm)
    ensures NewName(ctx, c, pm) == ColumnName(ctx, pm)
  {
    hide Properties, SituationOf;
    ClassFacts(ctx, c);
  }

  lemma NewNamesDiffer(ctx: Deployment, c: ClassDef, p: PropertyMeta, q: PropertyMeta)
    requires ValidModel(ctx) && IsProperty(ctx, c, p) && IsProperty(ctx, c, q) && p.name != q.name
    ensures NewName(ctx, c, p) != NewName(ctx, c, q)
  {
    hide Properties, SituationOf, PropertyNames, Resolvable, SuffixIsNew, WellFormed, KeyDeclaredOnce;
    ClassFacts(ctx, c);
  }

  lemma {:induction false} ColumnsDistinct(ctx: Deployment, c: ClassDef, ps: seq<PropertyMeta>)
    requires ValidModel(ctx) && IsClass(ctx, c) && DistinctProperties(ps) && forall p | p in ps :: p in Properties(ctx, c)
    ensures DistinctNames(AllColumns(ctx, c, ps))
  {
    hide Properties, NewName, GetsColumn, ValidModel;
    if ps != [] {
      var front, last := ps[..|ps| - 1], ps[|ps| - 1];
      ColumnsDistinct(ctx, c, front);
      var a := AllColumns(ctx, c, front);
      if GetsColumn(ctx, c, last) {
        forall i | 0 <= i < |a| ensures a[i].name != NewName(ctx, c, last) {
          assert a[i] in a;
          var pm := FromColumns(ctx, c, front, a[i]);
          var k :| 0 <= k < |front| && front[k] == pm;
          assert ps[k].name != ps[|ps| - 1].name;
          NewNamesDiffer(ctx, c, pm, last);
        }
      }
    }
  }

  lemma KeyNameIsNew(ctx: Deployment, c: ClassDef, pm: PropertyMeta)
    requires ValidModel(ctx) && IsProperty(ctx, c, pm) && GetsKeyColumn(ctx, c)
    ensures NewName(ctx, c, pm) != ctx.settings.naming.column(KeyProperty(ctx, c).value.name)
  {
    hide Properties, SituationOf;
    ClassFacts(ctx, c);
    assert pm.name != KeyProperty(ctx, c).value.name;
  }

  lemma ClassColumnsDistinct(ctx: Deployment, c: ClassDef)
    requires ValidModel(ctx) && IsClass(ctx, c)
    ensures DistinctNames(ClassColumns(ctx, c))
  {
    hide Properties, NewName, GetsColumn, ValidModel, GetsKeyColumn;
    ClassFacts(ctx, c);
    var ps := Properties(ctx, c);
    ColumnsDistinct(ctx, c, ps);
    var a, k := AllColumns(ctx, c, ps), KeyColumns(ctx, c);
    forall i, j | 0 <= i < |a| && 0 <= j < |k| ensures a[i].name != k[j].name {
      assert a[i] in a;
      var pm := FromColumns(ctx, c, ps, a[i]);
      KeyNameIsNew(ctx, c, pm);
    }
  }

  lemma NewTableFits(ctx: Deployment, ch: Change)
    requires ValidModel(ctx) && ch in Bucketed(ctx, CreateTables)
    ensures Fits(ctx, 5, ch)
  {
    hide Bucketed, Renamed, IsRelationTable, ClassColumns, NewIn;
    var c := TablesShape(ctx, ch);
    ClassColumnsDistinct(ctx, c);
    forall k | k in Creates(ch) ensures !HasColumn(ctx, 5, k) {
      if RenamedTo(ctx, k) {
        var o :| Renamed(ctx, o) && k == SavedRef(ctx, o);
        RenamedIsOld(ctx, o);
      }
    }
  }

  /** A column to be added to an existing table is not there, or no longer. */
  lemma AddedIsAbsent(ctx: Deployment, c: ClassDef, name: string)
    requires ValidModel(ctx) && DiscriminatorReady(ctx) && IsClass(ctx, c) && Table(ctx, c) in ctx.db.tables && NewIn(ctx, c, name)
    ensures !AfterRenames(ctx, ColRef(Table(ctx, c), name))
  {
    hide Properties, ValidModel, DiscriminatorReady, Renamed, NewName, KeyProperty;
    var k := ColRef(Table(ctx, c), name);
    if GetsKeyColumn(ctx, c) && name == ctx.settings.naming.column(KeyProperty(ctx, c).value.name) {
      OwnNameNotRenamedTo(ctx, c, KeyProperty(ctx, c).value, k.table);
    } else {
      var pm :| pm in Properties(ctx, c) && GetsColumn(ctx, c, pm) && name == NewName(ctx, c, pm);
      NewNameIsLookedUp(ctx, c, pm);
      RenamedRef(ctx, c, pm);
      OwnNameNotRenamedTo(ctx, c, pm, k.table);
      assert k == Ref(ctx, c, pm);
    }
  }

  lemma AddFits(ctx: Deployment, ch: Change)
    requires ValidModel(ctx) && DiscriminatorReady(ctx) && ch in Bucketed(ctx, AddedColumns)
    ensures Fits(ctx, 6, ch)
  {
    hide Bucketed, AfterRenames, IsRelationTable, ClassColumns, NewIn, ValidModel, DiscriminatorReady;
    var c := AddsShape(ctx, ch);
    ClassColumnsDistinct(ctx, c);
    forall k | k in Creates(ch) ensures !HasColumn(ctx, 6, k) {
      ClassColumnsExact(ctx, c, k.column);
      AddedIsAbsent(ctx, c, k.column);
    }
  }

  // Data, indices and keys of class tables.

  lemma ClassTableThere(ctx: Deployment, i: nat, c: ClassDef)
    requires IsClass(ctx, c) && i >= 6
    ensures HasTable(ctx, i, Table(ctx, c)) && IsClassTable(ctx, Table(ctx, c))
  {
  }

  /** What a property's own change at or after the data part needs. */
  ghost predicate There(ctx: Deployment, t: string, name: string) {
    AfterAdds(ctx, ColRef(t, name)) && IsClassTable(ctx, t)
  }

  lemma StaysThere(ctx: Deployment, i: nat, t: string, name: string)
    requires ValidModel(ctx) && 7 <= i <= 20 && There(ctx, t, name)
    ensures HasColumn(ctx, i, ColRef(t, name)) && HasTable(ctx, i, t)
  {
    hide HasColumn, AfterAdds, ValidModel;
    ClassColumnStays(ctx, i, ColRef(t, name));
  }

  lemma KeyThere(ctx: Deployment, c: ClassDef)
    requires ValidModel(ctx) && IsClass(ctx, c)
    ensures KeyProperty(ctx, c).Some? && There(ctx, Table(ctx, c), ctx.settings.naming.column(KeyProperty(ctx, c).value.name))
  {
    hide AfterAdds, ValidModel, KeyProperty;
    KeyColumnThere(ctx, c);
    ClassTableThere(ctx, 6, c);
  }

  lemma SavedThere(ctx: Deployment, c: ClassDef, pm: PropertyMeta)
    requires ValidModel(ctx) && IsProperty(ctx, c, pm) && Migrates(ctx, c, pm)
    ensures There(ctx, Table(ctx, c), Saved(ctx, ColumnName(ctx, pm)))
  {
    hide Properties, ValidModel, Renamed;
    ClassTableThere(ctx, 6, c);
    RenamedRef(ctx, c, pm);
    var k := ColRef(Table(ctx, c), Saved(ctx, ColumnName(ctx, pm)));
    assert k == SavedRef(ctx, Ref(ctx, c, pm));
  }

  lemma CopyFits(ctx: Deployment, c: ClassDef, i: nat)
    requires ValidModel(ctx) && DiscriminatorReady(ctx) && ReferencesReady(ctx) && IsClass(ctx, c) && 7 <= i <= 20
    ensures Fits(ctx, i, CopyData(Table(ctx, c), AllCopies(ctx, c, Properties(ctx, c))))
  {
    hide Properties, ValidModel, DiscriminatorReady, ReferencesReady, HasColumn, HasTable, There, Searched, AllCopies, Needs;
    var t, cs := Table(ctx, c), AllCopies(ctx, c, Properties(ctx, c));
    ClassTableThere(ctx, i, c);
    forall k | k in Needs(CopyData(t, cs)) ensures HasColumn(ctx, i, k) {
      var j := CopyNeeding(t, cs, k);
      var pm := FromCopies(ctx, c, Properties(ctx, c), cs[j]);
      CopyEndsThere(ctx, c, pm, cs[j]);
      StaysThere(ctx, i, k.table, k.column);
    }
  }

  lemma CopyNeeding(t: string, cs: seq<Copy>, k: ColRef) returns (j: nat)
    requires k in Needs(CopyData(t, cs))
    ensures j < |cs| && cs[j] in cs && (k == ColRef(t, cs[j].target) || k == ColRef(t, cs[j].source) || k in Searched(cs[j]))
  {
    hide Searched;
    if i :| 0 <= i < |cs| && k == ColRef(t, cs[i].target) {
      j := i;
    } else if i :| 0 <= i < |cs| && k == ColRef(t, cs[i].source) {
      j := i;
    } else {
      j :| 0 <= j < |cs| && k in Searched(cs[j]);
    }
  }

  lemma CopyEndsThere(ctx: Deployment, c: ClassDef, pm: PropertyMeta, cp: Copy)
    requires ValidModel(ctx) && DiscriminatorReady(ctx) && ReferencesReady(ctx) && IsProperty(ctx, c, pm) && cp in PropertyCopies(ctx, c, pm)
    ensures There(ctx, Table(ctx, c), cp.target) && There(ctx, Table(ctx, c), cp.source)
    ensures forall k | k in Searched(cp) :: There(ctx, k.table, k.column)
  {
    hide Properties, ValidModel, DiscriminatorReady, ReferencesReady, AfterAdds, NewName, Followed, Deployed;
    ClassTableThere(ctx, 6, c);
    SavedThere(ctx, c, pm);
    NewColumnThere(ctx, c, pm);
    NewNameIsLookedUp(ctx, c, pm);
    if pm.kind == REFERENCE {
      NotDiscriminator(ctx, c, pm);
      SearchedThere(ctx, c, pm);
    }
  }

  /** The class a followed reference refers to, and the migrated key column it is followed by. */
  lemma FollowedClass(ctx: Deployment, c: ClassDef, pm: PropertyMeta) returns (d: ClassDef, q: PropertyMeta)
    requires ValidModel(ctx) && IsProperty(ctx, c, pm) && pm.kind == REFERENCE && Followed(ctx, c, pm).Some?
    requires Renamed(ctx, FollowedRef(ctx, c, pm))
    ensures IsClass(ctx, d) && d.name == pm.refClass && ctx.settings.naming.table(pm.refClass) == Table(ctx, d)
    ensures IsProperty(ctx, d, q) && Migrates(ctx, d, q) && ColumnName(ctx, q) == Followed(ctx, c, pm).value
    ensures KeyProperty(ctx, d).Some? && Deployed(ctx, pm) == KeyProperty(ctx, d).value
  {
    hide Properties, PropertyNames, Resolvable, SuffixIsNew, WellFormed, KeyDeclaredOnce, KeyNamesApart, KeysResolve, SituationOf, Followed, KeyProperty;
    d, q :| IsProperty(ctx, d, q) && Migrates(ctx, d, q) && FollowedRef(ctx, c, pm) == Ref(ctx, d, q);
    assert ctx.settings.naming.table(pm.refClass) == Table(ctx, d);
    assert pm.refClass in ctx.classes;
    assert pm.refClass == d.name;
    ClassFacts(ctx, d);
  }

  lemma SearchedThere(ctx: Deployment, c: ClassDef, pm: PropertyMeta)
    requires ValidModel(ctx) && ReferencesReady(ctx) && IsProperty(ctx, c, pm) && Migrates(ctx, c, pm) && pm.kind == REFERENCE
    requires Followed(ctx, c, pm).Some?
    ensures var t := ctx.settings.naming.table(pm.refClass);
            There(ctx, t, ctx.settings.naming.column(Deployed(ctx, pm).name)) && There(ctx, t, Saved(ctx, Followed(ctx, c, pm).value))
  {
    hide ValidModel, There, Followed, KeyProperty, Renamed, Deployed, Properties;
    var d, q := FollowedClass(ctx, c, pm);
    KeyThere(ctx, d);
    SavedThere(ctx, d, q);
  }

  lemma RootKeyName(ctx: Deployment, c: ClassDef, child: ClassDef)
    requires ValidModel(ctx) && IsClass(ctx, c) && IsClass(ctx, child) && IsRoot(ctx, c) && Root(ctx, child) == c
    ensures KeyProperty(ctx, c).Some? && KeyProperty(ctx, child) == KeyProperty(ctx, c) && KeyProperty(ctx, c).value.name == c.key
  {
    hide Properties;
    ClassFacts(ctx, c);
    RootFacts(ctx, c);
  }

  lemma {:induction false} DescendantsRoot(ctx: Deployment, n: string, root: string)
    requires root in ctx.classes && IsRoot(ctx, ctx.classes[root]) && InheritanceLevels.StepsBelow(ctx, n, root).Some?
    ensures n in ctx.classes && Root(ctx, ctx.classes[n]) == ctx.classes[root]
    decreases if n in ctx.classes then ctx.depth[n] + 1 else 0
  {
    assert Grounded(ctx, n);
    var up := ctx.classes[n].ancestor;
    if up == root {
      RootFacts(ctx, ctx.classes[root]);
    } else {
      DescendantsRoot(ctx, up, root);
    }
  }

  /** The script asks for the key column of the tables of strict descendants. */
  lemma {:induction false} ScriptTables(ctx: Deployment, root: string, l: nat, u: Update)
    requires root in ctx.classes && u in ScriptFrom(ctx, root, l)
    ensures InheritanceLevels.StepsBelow(ctx, u.value, root).Some? && u.child == Some(ctx.settings.naming.table(u.value))
  {
    hide Level;
    var us := UpdatesOf(ctx, Level(ctx, root, l - 1));
    if u in us {
      var i :| 0 <= i < |us| && us[i] == u;
      InheritanceLevels.LevelExact(ctx, root, l - 1);
      assert Level(ctx, root, l - 1)[i] in Level(ctx, root, l - 1);
    } else {
      ScriptTables(ctx, root, l - 1, u);
    }
  }

  lemma BackfillFits(ctx: Deployment, c: ClassDef, pm: PropertyMeta, i: nat)
    requires ValidModel(ctx) && IsProperty(ctx, c, pm) && GetsBackfill(ctx, c, pm) && 7 <= i <= 20
    ensures Fits(ctx, i, BackfillOf(ctx, c, pm))
  {
    hide Properties, ValidModel, HasColumn, HasTable, There, Script;
    ClassTableThere(ctx, i, c);
    DiscriminatorThere(ctx, c, pm);
    RootKeyName(ctx, c, c) by { RootFacts(ctx, c); }
    var t, k := Table(ctx, c), ctx.settings.naming.column(c.key);
    KeyThere(ctx, c);
    StaysThere(ctx, i, t, ColumnName(ctx, pm));
    StaysThere(ctx, i, t, k);
    var us := Script(ctx, c.name);
    forall j | 0 <= j < |us| && us[j].child.Some? ensures HasColumn(ctx, i, ColRef(us[j].child.value, k)) {
      ScriptNeeds(ctx, c, us[j]);
      StaysThere(ctx, i, us[j].child.value, k);
    }
  }

  lemma DiscriminatorThere(ctx: Deployment, c: ClassDef, pm: PropertyMeta)
    requires IsProperty(ctx, c, pm) && GetsBackfill(ctx, c, pm)
    ensures There(ctx, Table(ctx, c), ColumnName(ctx, pm))
  {
    hide Properties, AfterAdds;
    ClassTableThere(ctx, 6, c);
    NewColumnThere(ctx, c, pm);
  }

  lemma ScriptNeeds(ctx: Deployment, c: ClassDef, u: Update)
    requires ValidModel(ctx) && IsClass(ctx, c) && IsRoot(ctx, c) && u in Script(ctx, c.name) && u.child.Some?
    ensures There(ctx, u.child.value, ctx.settings.naming.column(c.key))
  {
    hide Properties, ValidModel, There, Level, ScriptFrom, Height;
    ScriptTables(ctx, c.name, Height(ctx, c.name), u);
    DescendantsRoot(ctx, u.value, c.name);
    assert Grounded(ctx, u.value);
    var child := ctx.classes[u.value];
    RootKeyName(ctx, c, child);
    KeyThere(ctx, child);
  }

  lemma DataFits(ctx: Deployment, ch: Change)
    requires ValidModel(ctx) && DiscriminatorReady(ctx) && ReferencesReady(ctx) && ch in Bucketed(ctx, DataMigrate)
    ensures Fits(ctx, 7, ch)
  {
    hide BucketChanges, Properties, ValidModel, DiscriminatorReady, ReferencesReady, Fits, BackfillOf;
    var c := FromClass(ctx, ctx.order, DataMigrate, ch);
    var ps := Properties(ctx, c);
    if ch in AllPropertyChanges(ctx, c, ps, DataMigrate) {
      var pm := FromProperty(ctx, c, ps, DataMigrate, ch);
      BackfillFits(ctx, c, pm, 7);
    } else {
      CopyFits(ctx, c, 7);
    }
  }

  lemma IndexFits(ctx: Deployment, ch: Change)
    requires ValidModel(ctx) && DiscriminatorReady(ctx) && ch in Bucketed(ctx, AddIndices)
    ensures Fits(ctx, 8, ch)
  {
    hide BucketChanges, Properties, ValidModel, DiscriminatorReady, HasColumn, HasTable, AfterAdds, GetsColumn;
    var c, pm := FromBucket(ctx, AddIndices, ch);
    ClassTableThere(ctx, 6, c);
    NewColumnThere(ctx, c, pm);
    NotDiscriminator(ctx, c, pm);
    StaysThere(ctx, 8, Table(ctx, c), ctx.settings.naming.column(pm.name));
  }

  lemma NotDiscriminator(ctx: Deployment, c: ClassDef, pm: PropertyMeta)
    requires ValidModel(ctx) && IsProperty(ctx, c, pm) && (pm.indexed || pm.kind == REFERENCE || IsKey(ctx, c, pm.name))
    ensures NewName(ctx, c, pm) == ctx.settings.naming.column(pm.name)
  {
    hide Properties, SituationOf;
    ClassFacts(ctx, c);
  }

  lemma CreateKeyFits(ctx: Deployment, ch: Change)
    requires ValidModel(ctx) && ch in Bucketed(ctx, CreatePK)
    ensures Fits(ctx, 11, ch)
  {
    hide BucketChanges, Properties, ValidModel, HasColumn, HasTable, AfterAdds, IsKey;
    var c, pm := FromBucket(ctx, CreatePK, ch);
    ClassTableThere(ctx, 6, c);
    KeyGetsColumn(ctx, c, pm);
    NewColumnThere(ctx, c, pm);
    NotDiscriminator(ctx, c, pm);
    StaysThere(ctx, 11, Table(ctx, c), ctx.settings.naming.column(pm.name));
  }

  lemma KeyGetsColumn(ctx: Deployment, c: ClassDef, pm: PropertyMeta)
    requires ValidModel(ctx) && IsProperty(ctx, c, pm) && MigratesKey(ctx, c, pm)
    ensures GetsColumn(ctx, c, pm)
  {
    hide Properties, SituationOf, IsKey;
    ClassFacts(ctx, c);
  }

  /** A foreign key finds its column and the key of the class it refers to. */
  lemma LinkFits(ctx: Deployment, c: ClassDef, pm: PropertyMeta, ch: Change, i: nat)
    requires ValidModel(ctx) && IsClass(ctx, c) && 7 <= i <= 20 && ch in ForeignKeys(ctx, c, pm)
    requires There(ctx, Table(ctx, c), ctx.settings.naming.column(pm.name))
    ensures Fits(ctx, i, ch)
  {
    hide ValidModel, There, HasColumn, HasTable, KeyProperty;
    var target := if pm.kind == REFERENCE then ctx.classes[pm.refClass] else Ancestor(ctx, c).value;
    assert IsClass(ctx, target) by {
      if pm.kind == REFERENCE {
        assert Grounded(ctx, pm.refClass);
      } else {
        assert Grounded(ctx, c.ancestor);
      }
    }
    KeyThere(ctx, target);
    StaysThere(ctx, i, Table(ctx, c), ctx.settings.naming.column(pm.name));
    StaysThere(ctx, i, Table(ctx, target), ctx.settings.naming.column(KeyProperty(ctx, target).value.name));
  }

  lemma ForeignKeyFits(ctx: Deployment, ch: Change)
    requires ValidModel(ctx) && ch in Bucketed(ctx, CreateFKs)
    ensures Fits(ctx, 9, ch)
  {
    hide BucketChanges, Properties, ValidModel, Fits, ForeignKeys, There, GetsColumn, GetsKeyColumn;
    var c := FromClass(ctx, ctx.order, CreateFKs, ch);
    var ps := Properties(ctx, c);
    if ch in AllPropertyChanges(ctx, c, ps, CreateFKs) {
      var pm := FromProperty(ctx, c, ps, CreateFKs, ch);
      LinkedThere(ctx, c, pm, ch);
      LinkFits(ctx, c, pm, ch, 9);
    } else {
      KeyThere(ctx, c);
      LinkFits(ctx, c, KeyProperty(ctx, c).value, ch, 9);
    }
  }

  lemma LinkedThere(ctx: Deployment, c: ClassDef, pm: PropertyMeta, ch: Change)
    requires ValidModel(ctx) && IsProperty(ctx, c, pm) && GetsColumn(ctx, c, pm) && ch in ForeignKeys(ctx, c, pm)
    ensures There(ctx, Table(ctx, c), ctx.settings.naming.column(pm.name))
  {
    hide Properties, ValidModel, AfterAdds, GetsColumn, KeyProperty;
    ClassTableThere(ctx, 6, c);
    NewColumnThere(ctx, c, pm);
    NotDiscriminator(ctx, c, pm);
  }
}
