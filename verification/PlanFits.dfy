/** When a schema can be deployed to, what it means that a change fits its stage, and what
    the proofs need of names: planned, saved and fixed names do not meet, relation tables
    are no class tables, and the key column of every class table is there after the class
    part. A fitting change can be applied to any database that has reached its stage. */
module PlanFits {
  import opened Wrappers
  import opened PropertyTypes
  import opened Database
  import opened DeployPlan
  import opened PlanShape
  import opened PlanColumns
  import opened PlanRuns

  /** No discriminator column that exists has to be migrated: the planner would create the
      new one under a prefixed name and copy into the old name. */
  ghost predicate DiscriminatorReady(ctx: Deployment) {
    forall c {:trigger IsClass(ctx, c)} | IsClass(ctx, c) && IsRoot(ctx, c) && ctx.settings.useDiscriminator ::
      !Migrates(ctx, c, DiscriminatorProperty(ctx.settings))
  }

  /** An existing relation table whose primary key is made anew has both columns. */
  ghost predicate RelationsReady(ctx: Deployment) {
    forall c, other, r {:trigger Relates(ctx, c, other, r)} | Relates(ctx, c, other, r) && r in ctx.db.tables && Resets(ctx, r, c, other) ::
      ColRef(r, "master") in ctx.db.columns && ColRef(r, "detail") in ctx.db.columns
  }

  /** The column that a migrated reference is followed by, the key of the row it referred to, is
      migrated as well: the statement that fills the reference looks for the saved one. */
  ghost predicate ReferencesReady(ctx: Deployment) {
    forall c, pm {:trigger Followed(ctx, c, pm)} | IsProperty(ctx, c, pm) && Migrates(ctx, c, pm) && pm.kind == REFERENCE && Followed(ctx, c, pm).Some? ::
      Renamed(ctx, FollowedRef(ctx, c, pm))
  }

  function FollowedRef(ctx: Deployment, c: ClassDef, pm: PropertyMeta): ColRef
    requires Followed(ctx, c, pm).Some?
  {
    ColRef(ctx.settings.naming.table(pm.refClass), Followed(ctx, c, pm).value)
  }

  ghost predicate Deployable(ctx: Deployment) {
    DiscriminatorReady(ctx) && RelationsReady(ctx) && ReferencesReady(ctx)
  }

  /** The change finds what it needs before the i-th part. */
  ghost predicate Fits(ctx: Deployment, i: nat, ch: Change) {
    && (forall k | k in Needs(ch) :: HasColumn(ctx, i, k))
    && (forall k | k in Creates(ch) :: !HasColumn(ctx, i, k))
    && (ch.CreateTable? <==> !HasTable(ctx, i, ch.table))
    && (ch.CreateTable? || ch.AddColumns? ==> DistinctNames(ch.newColumns))
    && !ch.DropForeignKey?
  }

  lemma FitsApply(ctx: Deployment, i: nat, db: Schema, ch: Change)
    requires Reached(ctx, i, db) && Fits(ctx, i, ch) && AddsKey(ch) !! KeyNames(db)
    ensures CanApply(db, ch)
  {
    hide HasColumn, HasTable;
    assert forall k :: k in db.columns <==> HasColumn(ctx, i, k);
  }

  // Names.

  lemma SameTable(ctx: Deployment, c: ClassDef, d: ClassDef)
    requires ValidModel(ctx) && IsClass(ctx, c) && IsClass(ctx, d) && Table(ctx, c) == Table(ctx, d)
    ensures c == d
  {
  }

  lemma SameColumn(ctx: Deployment, c: ClassDef, p: PropertyMeta, q: PropertyMeta)
    requires ValidModel(ctx) && IsProperty(ctx, c, p) && IsProperty(ctx, c, q) && ColumnName(ctx, p) == ColumnName(ctx, q)
    ensures p == q
  {
    hide Properties;
    ClassFacts(ctx, c);
    var ps := Properties(ctx, c);
    var i :| 0 <= i < |ps| && ps[i] == p;
    var j :| 0 <= j < |ps| && ps[j] == q;
    assert p.name == q.name;
  }

  /** A class-table column is renamed exactly when its property migrates. */
  lemma RenamedRef(ctx: Deployment, c: ClassDef, pm: PropertyMeta)
    requires ValidModel(ctx) && IsProperty(ctx, c, pm)
    ensures Renamed(ctx, Ref(ctx, c, pm)) <==> Migrates(ctx, c, pm)
  {
    hide Properties, ValidModel, SituationOf;
    if Renamed(ctx, Ref(ctx, c, pm)) {
      var d, q :| IsProperty(ctx, d, q) && Migrates(ctx, d, q) && Ref(ctx, c, pm) == Ref(ctx, d, q);
      SameTable(ctx, c, d);
      SameColumn(ctx, c, pm, q);
    }
  }

  /** A column called after a property a class does not have is not renamed in its table. */
  lemma OtherColumnStays(ctx: Deployment, c: ClassDef, name: string)
    requires ValidModel(ctx) && IsClass(ctx, c)
    requires forall p | p in Properties(ctx, c) :: ColumnName(ctx, p) != name
    ensures !Renamed(ctx, ColRef(Table(ctx, c), name))
  {
    hide Properties, ValidModel, SituationOf;
    if Renamed(ctx, ColRef(Table(ctx, c), name)) {
      var d, q :| IsProperty(ctx, d, q) && Migrates(ctx, d, q) && ColRef(Table(ctx, c), name) == Ref(ctx, d, q);
      SameTable(ctx, c, d);
    }
  }

  /** No renamed column lands on a planned or fixed name. */
  lemma NotRenamedTo(ctx: Deployment, t: string, name: string)
    requires ValidModel(ctx)
    requires (exists n :: n in PropertyNames(ctx) && name == ctx.settings.naming.column(n)) || name == ctx.settings.discriminator || name == "master" || name == "detail"
    ensures !RenamedTo(ctx, ColRef(t, name)) && !SideRenamedTo(ctx, ColRef(t, name))
  {
    hide Renamed, SideRenamed, ValidModel;
    var k := ColRef(t, name);
    if RenamedTo(ctx, k) {
      var o :| Renamed(ctx, o) && k == SavedRef(ctx, o);
      RenamedIsOld(ctx, o);
      SavedIsNew(ctx, o);
    }
    if SideRenamedTo(ctx, k) {
      var o :| SideRenamed(ctx, o) && k == SavedRef(ctx, o);
      SideRenamedIsOld(ctx, o);
      SavedIsNew(ctx, o);
    }
  }

  /** The column of a property, the key of a superclass included, is no renamed one. */
  lemma OwnNameNotRenamedTo(ctx: Deployment, c: ClassDef, pm: PropertyMeta, t: string)
    requires ValidModel(ctx) && IsClass(ctx, c) && (pm in Properties(ctx, c) || KeyProperty(ctx, c) == Some(pm))
    ensures var k := ColRef(t, ColumnName(ctx, pm)); !RenamedTo(ctx, k) && !SideRenamedTo(ctx, k)
    ensures var k := ColRef(t, ctx.settings.naming.column(pm.name)); !RenamedTo(ctx, k) && !SideRenamedTo(ctx, k)
  {
    hide Properties, ValidModel, RenamedTo, SideRenamedTo, KeyProperty, PropertyNames;
    ClassFacts(ctx, c);
    assert pm.name in PropertyNames(ctx);
    NotRenamedTo(ctx, t, ColumnName(ctx, pm));
    NotRenamedTo(ctx, t, ctx.settings.naming.column(pm.name));
  }

  lemma RelationIsNoClassTable(ctx: Deployment, c: ClassDef, other: ClassDef, r: string)
    requires ValidModel(ctx) && Relates(ctx, c, other, r)
    ensures !IsClassTable(ctx, r)
  {
    hide Properties, PropertyNames, Resolvable, SuffixIsNew, WellFormed, KeyDeclaredOnce;
    var pm :| IsProperty(ctx, c, pm) && OwnsRelation(ctx, c, pm) && r == Relation(ctx, c, pm) && other == Find(ctx, pm.itemsClass).value;
    ClassFacts(ctx, c);
    forall d | IsClass(ctx, d) ensures Table(ctx, d) != r {
    }
  }

  /** Class-table columns stay put once the class part of the plan is done. */
  lemma ClassColumnStays(ctx: Deployment, i: nat, k: ColRef)
    requires ValidModel(ctx) && 7 <= i <= 20 && IsClassTable(ctx, k.table)
    ensures AfterAdds(ctx, k) ==> HasColumn(ctx, i, k)
  {
    hide ValidModel, AfterAdds, NewRelationColumn, IsClassTable, Relates;
    if SideRenamed(ctx, k) {
      var c, other :| Relates(ctx, c, other, k.table);
      RelationIsNoClassTable(ctx, c, other, k.table);
    }
  }

  /** The column of a property that gets one is there after the class part. */
  lemma NewColumnThere(ctx: Deployment, c: ClassDef, pm: PropertyMeta)
    requires IsProperty(ctx, c, pm) && GetsColumn(ctx, c, pm)
    ensures AfterAdds(ctx, ColRef(Table(ctx, c), NewName(ctx, c, pm)))
  {
    hide Properties, GetsColumn, NewName, AfterRenames;
    var k := ColRef(Table(ctx, c), NewName(ctx, c, pm));
    assert NewIn(ctx, c, k.column);
    var existing := Table(ctx, c) in ctx.db.tables;
    assert NewClassColumn(ctx, k, existing);
  }

  /** The key column of every class table is there after the class part. */
  lemma KeyColumnThere(ctx: Deployment, c: ClassDef)
    requires ValidModel(ctx) && IsClass(ctx, c)
    ensures KeyProperty(ctx, c).Some?
    ensures AfterAdds(ctx, ColRef(Table(ctx, c), ctx.settings.naming.column(KeyProperty(ctx, c).value.name)))
  {
    hide Properties, ValidModel, KeyProperty, AfterRenames, NewName;
    ClassFacts(ctx, c);
    var pm := KeyProperty(ctx, c).value;
    if IsRoot(ctx, c) {
      RootKeyThere(ctx, c, pm);
    } else {
      SubclassKeyThere(ctx, c, pm);
    }
  }

  lemma ColumnOf(ctx: Deployment, c: ClassDef, pm: PropertyMeta)
    requires ValidModel(ctx) && IsProperty(ctx, c, pm)
    requires ctx.settings.useDiscriminator ==> pm.name != ctx.settings.discriminator
    ensures ColumnName(ctx, pm) == ctx.settings.naming.column(pm.name) == NewName(ctx, c, pm)
    ensures !IsDiscriminator(ctx, c, pm)
  {
    hide Properties, SituationOf;
    ClassFacts(ctx, c);
  }

  lemma RootKeyThere(ctx: Deployment, c: ClassDef, pm: PropertyMeta)
    requires ValidModel(ctx) && IsProperty(ctx, c, pm) && pm.kind != COLLECTION && IsRoot(ctx, c)
    requires ctx.settings.useDiscriminator ==> pm.name != ctx.settings.discriminator
    ensures AfterAdds(ctx, ColRef(Table(ctx, c), ctx.settings.naming.column(pm.name)))
  {
    hide Properties, ValidModel, Renamed, NewName, ColumnName;
    ColumnOf(ctx, c, pm);
    RenamedRef(ctx, c, pm);
    if GetsColumn(ctx, c, pm) {
      NewColumnThere(ctx, c, pm);
    } else {
      assert Ref(ctx, c, pm) in ctx.db.columns && !Migrates(ctx, c, pm);
      assert AfterRenames(ctx, Ref(ctx, c, pm));
    }
  }

  lemma SubclassKeyThere(ctx: Deployment, c: ClassDef, pm: PropertyMeta)
    requires ValidModel(ctx) && IsClass(ctx, c) && !IsRoot(ctx, c) && KeyProperty(ctx, c) == Some(pm) && IsKey(ctx, c, pm.name)
    ensures AfterAdds(ctx, ColRef(Table(ctx, c), ctx.settings.naming.column(pm.name)))
  {
    hide Properties, KeyProperty, Renamed;
    var k := ColRef(Table(ctx, c), ctx.settings.naming.column(pm.name));
    if k in ctx.db.columns {
      ClassFacts(ctx, c);
      forall p | p in Properties(ctx, c) ensures ColumnName(ctx, p) != k.column {
        assert p.name != pm.name;
      }
      OtherColumnStays(ctx, c, k.column);
    } else {
      assert NewIn(ctx, c, k.column);
      var existing := Table(ctx, c) in ctx.db.tables;
      assert NewClassColumn(ctx, k, existing);
    }
  }
}
