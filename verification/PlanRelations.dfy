/** Planning again over relation tables: here the declared size of a key counts, while the columns are
    made without it, so that not every relation table is left alone. Exactly which are: those
    of which both sides settle, because the side was there with a type that the comparison
    keeps, or because the key is declared without a size or with the one that its columns
    get. The others are planned again every time. */
module PlanRelations {
  import opened Wrappers
  import opened PropertyTypes
  import opened Database
  import opened DeployPlan
  import opened PlanShape
  import opened PlanColumns
  import opened PlanRuns
  import opened PlanFits
  import opened PlanExecutes
  import opened PlanData
  import opened PlanFixpoint
  import opened PlanSchema

  /** The side was there with a type the comparison keeps, or is made with the declared size. */
  predicate Settles(ctx: Deployment, k: ColRef, key: PropertyMeta, defaultLength: int) {
    (k in ctx.db.columns && DecideRelation(key, ctx.db.columns[k].info) == Keep) || SizeHolds(key, defaultLength)
  }

  /** The key of a class, and a type that the comparison of sides can be told for. */
  ghost predicate HasKey(ctx: Deployment, c: ClassDef, key: PropertyMeta) {
    IsKeyOf(ctx, c, key) && HasOwnCase(key.kind) && key.kind != DECIMAL
  }

  /** The same model over the schema the plan left behind. */
  ghost predicate IsNext(ctx: Deployment, next: Deployment, db: Schema) {
    && next.classes == ctx.classes && next.depth == ctx.depth && next.place == ctx.place
    && next.settings == ctx.settings.(changeLogId := next.settings.changeLogId)
    && next.db == db
  }

  lemma SideAgain(ctx: Deployment, parts: seq<seq<Change>>, engine: Engine, defaultLength: int, c: ClassDef, pm: PropertyMeta, other: ClassDef,
                  side: string, key: PropertyMeta, next: Deployment)
    requires Runs(ctx, parts, engine) && ctx.settings.rules == StandardRules(defaultLength) && Faithful(engine.realise)
    requires ManyToMany(ctx, c, pm, other) && IsSide(side) && HasKey(ctx, SideClass(side, c, other), key)
    requires var t := ctx.settings.naming.relation(c.name, pm.name); t !in ctx.db.tables || ColRef(t, side) in ctx.db.columns
    requires IsNext(ctx, next, Run(engine, ctx.db, Flatten(parts)).value)
    ensures var t := ctx.settings.naming.relation(c.name, pm.name);
            && ColRef(t, side) in next.db.columns
            && SideDecision(next, t, side, SideClass(side, c, other)).Some?
            && (SideDecision(next, t, side, SideClass(side, c, other)) == Some(Keep) <==> Settles(ctx, ColRef(t, side), key, defaultLength))
  {
    hide ValidModel, Emission, Run, Flatten, Faithful, DecideRelation, DeployedType, KeyProperty, Root, Properties;
    var t, d := ctx.settings.naming.relation(c.name, pm.name), SideClass(side, c, other);
    var k := ColRef(t, side);
    SideAfter(ctx, parts, engine, defaultLength, c, pm, other, side, key);
    assert IsClass(ctx, d) by { assert Grounded(ctx, pm.itemsClass); }
    KeyIsKeyProperty(ctx, d, key);
    SameModel(ctx, next, d, key);
    SideDecided(next, defaultLength, t, side, d, key);
    if !(k in ctx.db.columns && DecideRelation(key, ctx.db.columns[k].info) == Keep) {
      SideSettlesExactly(key, engine.realise, defaultLength);
    }
  }

  lemma OwnedAgain(ctx: Deployment, parts: seq<seq<Change>>, engine: Engine, defaultLength: int, c: ClassDef, pm: PropertyMeta, other: ClassDef, next: Deployment)
    requires Runs(ctx, parts, engine) && ctx.settings.rules == StandardRules(defaultLength) && ManyToMany(ctx, c, pm, other)
    requires IsNext(ctx, next, Run(engine, ctx.db, Flatten(parts)).value)
    ensures OwnsRelation(next, c, pm) && Find(next, pm.itemsClass) == Some(other)
    ensures Relation(next, c, pm) == ctx.settings.naming.relation(c.name, pm.name)
    ensures WellFormed(next.db)
  {
    hide ValidModel, Emission, Run, Flatten, KeyProperty, Root, Properties, HasColumn, DiscriminatorReady, RelationsReady, Deployed;
    PartCount(ctx, parts, engine);
    assert parts[..20] == parts;
    StageOf(ctx, parts, engine, 20);
    SameModel(ctx, next, c, pm);
    MustBeDeployable(ctx, parts, engine);
    CollectionAbsent(ctx, defaultLength, c, pm);
    OwnsExactly(ctx, defaultLength, c, pm);
    assert Ref(next, c, pm) !in next.db.columns;
    assert !SituationOf(next, c, pm).Present?;
  }

  lemma KeepsAll(ctx: Deployment, c: ClassDef, other: ClassDef, r: string)
    requires r in ctx.db.tables && SideDecision(ctx, r, "master", c).Some? && SideDecision(ctx, r, "detail", other).Some?
    ensures (forall b | RelationBucket(b) :: RelationChanges(ctx, c, other, r, b) == []) <==>
              SideDecision(ctx, r, "master", c) == Some(Keep) && SideDecision(ctx, r, "detail", other) == Some(Keep)
  {
    hide KeyProperty;
    var m, d := SideDecision(ctx, r, "master", c), SideDecision(ctx, r, "detail", other);
    KeyOfSide(ctx, r, "master", c);
    KeyOfSide(ctx, r, "detail", other);
    if m == Some(Keep) && d == Some(Keep) {
      hide SideDecision;
      forall b | RelationBucket(b) ensures RelationChanges(ctx, c, other, r, b) == [] {
      }
    } else {
      hide SideDecision;
      assert RelationBucket(RenameRelColumns) && RelationBucket(ModifyRelTypes);
      assert m.value.Keep? || m.value.Widen? || m.value.Migrate?;
      assert d.value.Keep? || d.value.Widen? || d.value.Migrate?;
      if m == Some(Migrate) || d == Some(Migrate) {
        assert |RelationChanges(ctx, c, other, r, RenameRelColumns)| > 0;
      } else {
        assert |RelationChanges(ctx, c, other, r, ModifyRelTypes)| > 0;
      }
    }
  }

  lemma KeyOfSide(ctx: Deployment, r: string, side: string, c: ClassDef)
    requires SideDecision(ctx, r, side, c).Some?
    ensures KeyProperty(ctx, c).Some?
  {
    hide KeyProperty;
  }

  /** The second plan leaves a relation table alone if and only if both sides settle: a key that is
      declared with another size than its columns get is planned again every time. */
  lemma RelationSettledExactly(ctx: Deployment, parts: seq<seq<Change>>, engine: Engine, defaultLength: int, c: ClassDef, pm: PropertyMeta, other: ClassDef,
                               masterKey: PropertyMeta, detailKey: PropertyMeta, next: Deployment)
    requires Runs(ctx, parts, engine) && ctx.settings.rules == StandardRules(defaultLength) && Faithful(engine.realise)
    requires ManyToMany(ctx, c, pm, other) && HasKey(ctx, c, masterKey) && HasKey(ctx, other, detailKey)
    requires var t := ctx.settings.naming.relation(c.name, pm.name);
             t !in ctx.db.tables || (ColRef(t, "master") in ctx.db.columns && ColRef(t, "detail") in ctx.db.columns)
    requires IsNext(ctx, next, Run(engine, ctx.db, Flatten(parts)).value)
    ensures var t := ctx.settings.naming.relation(c.name, pm.name);
            (forall b | RelationBucket(b) :: RelationPart(next, c, pm, b) == []) <==>
              Settles(ctx, ColRef(t, "master"), masterKey, defaultLength) && Settles(ctx, ColRef(t, "detail"), detailKey, defaultLength)
  {
    hide Runs, Run, Flatten, Faithful, ManyToMany, HasKey, IsNext, Settles, SideDecision, RelationChanges, OwnsRelation;
    var t := ctx.settings.naming.relation(c.name, pm.name);
    SideAgain(ctx, parts, engine, defaultLength, c, pm, other, "master", masterKey, next);
    SideAgain(ctx, parts, engine, defaultLength, c, pm, other, "detail", detailKey, next);
    OwnedAgain(ctx, parts, engine, defaultLength, c, pm, other, next);
    assert t in next.db.tables by { TableOfColumn(next.db, ColRef(t, "master")); }
    KeepsAll(next, c, other, t);
    forall b | RelationBucket(b) ensures RelationPart(next, c, pm, b) == RelationChanges(next, c, other, t, b) {
    }
  }

  lemma TableOfColumn(db: Schema, k: ColRef)
    requires WellFormed(db) && k in db.columns
    ensures k.table in db.tables
  {
  }
}
