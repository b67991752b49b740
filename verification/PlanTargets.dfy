/** What the foreign keys of a plan refer to: after a plan that runs through, key by key
    with the columns on both ends, those of references, new subclass tables and relation
    tables. */
module PlanTargets {
  import opened Wrappers
  import opened PropertyTypes
  import opened Database
  import opened Batches
  import opened DeployPlan
  import opened PlanShape
  import opened PlanColumns
  import opened PlanStages
  import opened PlanRuns
  import opened PlanKeys
  import opened PlanData

  /** The key column that the tables of a hierarchy share, called after the key of the class on top. */
  function KeyColumn(ctx: Deployment, c: ClassDef): string {
    ctx.settings.naming.column(Root(ctx, c).key)
  }

  /** The foreign key of a property of c that refers to the key of another class. */
  predicate IsLink(ctx: Deployment, c: ClassDef, property: string, target: string, fk: ForeignKey) {
    var n := ctx.settings.naming;
    && target in ctx.classes
    && fk.name == n.foreignKey(c.name, property) && fk.table == n.table(c.name) && fk.column == n.column(property)
    && fk.refTable == n.table(target) && fk.refColumn == KeyColumn(ctx, ctx.classes[target])
  }

  /** A reference is linked to the class it refers to, under referential integrity. */
  predicate LinksReference(ctx: Deployment, c: ClassDef, pm: PropertyMeta, fk: ForeignKey) {
    pm.kind == REFERENCE && ctx.settings.referentialIntegrity && IsLink(ctx, c, pm.name, pm.refClass, fk)
  }

  /** The key column of a subclass table is linked to the table of the class above, unless the key is a reference. */
  predicate LinksKey(ctx: Deployment, c: ClassDef, pm: PropertyMeta, fk: ForeignKey) {
    LinksReference(ctx, c, pm, fk) || (pm.kind != REFERENCE && IsLink(ctx, c, pm.name, c.ancestor, fk))
  }

  ghost predicate MadeForClass(ctx: Deployment, fk: ForeignKey) {
    exists c, pm :: IsClass(ctx, c) &&
      ((pm in Properties(ctx, c) && GetsColumn(ctx, c, pm) && LinksReference(ctx, c, pm, fk))
       || (GetsKeyColumn(ctx, c) && KeyProperty(ctx, c) == Some(pm) && LinksKey(ctx, c, pm, fk)))
  }

  /** The master column refers to the class that has the collection, the detail column to that of its items. */
  predicate LinksSide(ctx: Deployment, c: ClassDef, other: ClassDef, fk: ForeignKey) {
    var n, names := ctx.settings.naming, RelationKeyNames(ctx, fk.table);
    || (fk.name == names.0 && fk.column == "master" && fk.refTable == n.table(c.name) && fk.refColumn == KeyColumn(ctx, c))
    || (fk.name == names.1 && fk.column == "detail" && fk.refTable == n.table(other.name) && fk.refColumn == KeyColumn(ctx, other))
  }

  ghost predicate MadeForRelation(ctx: Deployment, fk: ForeignKey) {
    exists c, other :: RelationLinked(ctx, c, other, fk.table) && LinksSide(ctx, c, other, fk)
  }

  lemma KeyColumnName(ctx: Deployment, c: ClassDef)
    requires ValidModel(ctx) && IsClass(ctx, c)
    ensures KeyProperty(ctx, c).Some? && ctx.settings.naming.column(KeyProperty(ctx, c).value.name) == KeyColumn(ctx, c)
  {
    hide ValidModel, Properties, KeyProperty, PropertyNames;
    ClassFacts(ctx, c);
  }

  lemma ReferenceLinks(ctx: Deployment, c: ClassDef, pm: PropertyMeta, fk: ForeignKey)
    requires ValidModel(ctx) && IsClass(ctx, c) && pm.kind == REFERENCE
    ensures Adding(fk) in ForeignKeys(ctx, c, pm) <==> LinksReference(ctx, c, pm, fk)
  {
    hide ValidModel, KeyProperty, Root, Properties, HasProperty;
    if pm.refClass in ctx.classes {
      assert Grounded(ctx, pm.refClass);
      KeyColumnName(ctx, ctx.classes[pm.refClass]);
    }
  }

  /** Of the properties that are no references, only the key of a subclass is linked. */
  lemma KeyLinks(ctx: Deployment, c: ClassDef, pm: PropertyMeta, fk: ForeignKey)
    requires ValidModel(ctx) && IsClass(ctx, c) && pm.kind != REFERENCE
    ensures pm in Properties(ctx, c) ==> ForeignKeys(ctx, c, pm) == []
    ensures !IsRoot(ctx, c) && KeyProperty(ctx, c) == Some(pm) ==>
              (Adding(fk) in ForeignKeys(ctx, c, pm) <==> IsLink(ctx, c, pm.name, c.ancestor, fk))
  {
    hide Resolvable, NamesApart, KeyNamesApart, OutsidersApart, SuffixIsNew, WellFormed, KeysResolve, KeyProperty, Root, Properties, PropertyNames, HasProperty;
    ClassFacts(ctx, c);
    assert KeyDeclaredOnce(ctx, c);
    if !IsRoot(ctx, c) {
      assert Grounded(ctx, c.ancestor);
      KeyColumnName(ctx, ctx.classes[c.ancestor]);
    }
  }

  /** The class part makes exactly these keys. */
  lemma ClassTargets(ctx: Deployment, fk: ForeignKey)
    requires ValidModel(ctx)
    ensures Adding(fk) in Bucketed(ctx, CreateFKs) <==> MadeForClass(ctx, fk)
  {
    hide ValidModel, BucketChanges, Properties, ForeignKeys, GetsColumn, KeyProperty, AllPropertyChanges, LinksReference, IsLink;
    var ch := Adding(fk);
    if ch in Bucketed(ctx, CreateFKs) {
      var c := FromClass(ctx, ctx.order, CreateFKs, ch);
      var ps := Properties(ctx, c);
      if ch in AllPropertyChanges(ctx, c, ps, CreateFKs) {
        var pm := FromProperty(ctx, c, ps, CreateFKs, ch);
        LinkedAs(ctx, c, pm, fk);
      } else {
        var pm := KeyOfLink(ctx, c, ch);
        LinkedAs(ctx, c, pm, fk);
      }
    }
    if MadeForClass(ctx, fk) {
      var c, pm :| IsClass(ctx, c) &&
        ((pm in Properties(ctx, c) && GetsColumn(ctx, c, pm) && LinksReference(ctx, c, pm, fk))
         || (GetsKeyColumn(ctx, c) && KeyProperty(ctx, c) == Some(pm) && LinksKey(ctx, c, pm, fk)));
      var ps := Properties(ctx, c);
      LinkedAs(ctx, c, pm, fk);
      if pm in ps && GetsColumn(ctx, c, pm) && LinksReference(ctx, c, pm, fk) {
        ReferenceIsReference(ctx, c, pm, fk);
        ToProperties(ctx, c, ps, CreateFKs, pm, ch);
      }
      assert ch in ClassChanges(ctx, c, ps, CreateFKs);
      ToBucket(ctx, ctx.order, CreateFKs, c, ch);
    }
  }

  lemma ReferenceIsReference(ctx: Deployment, c: ClassDef, pm: PropertyMeta, fk: ForeignKey)
    requires LinksReference(ctx, c, pm, fk)
    ensures pm.kind == REFERENCE
  {
  }

  lemma LinkedAs(ctx: Deployment, c: ClassDef, pm: PropertyMeta, fk: ForeignKey)
    requires ValidModel(ctx) && IsClass(ctx, c)
    ensures pm in Properties(ctx, c) ==> (Adding(fk) in ForeignKeys(ctx, c, pm) <==> LinksReference(ctx, c, pm, fk))
    ensures !IsRoot(ctx, c) && KeyProperty(ctx, c) == Some(pm) ==> (Adding(fk) in ForeignKeys(ctx, c, pm) <==> LinksKey(ctx, c, pm, fk))
  {
    hide ValidModel, Properties, ForeignKeys, KeyProperty, IsLink;
    if pm.kind == REFERENCE {
      ReferenceLinks(ctx, c, pm, fk);
    } else {
      KeyLinks(ctx, c, pm, fk);
    }
  }

  /** The relation part makes exactly these keys. */
  lemma RelationTargets(ctx: Deployment, fk: ForeignKey)
    requires ValidModel(ctx)
    ensures Adding(fk) in Bucketed(ctx, CreateRelFKs) <==> MadeForRelation(ctx, fk)
  {
    hide ValidModel, Bucketed, Relates, LinkRelation, LinksSide, Resets;
    var ch := Adding(fk);
    if ch in Bucketed(ctx, CreateRelFKs) {
      var c, other, r := FromRelation(ctx, CreateRelFKs, ch);
      SidesLinked(ctx, c, other, r, fk);
    }
    if MadeForRelation(ctx, fk) {
      var c, other :| RelationLinked(ctx, c, other, fk.table) && LinksSide(ctx, c, other, fk);
      RelatesClasses(ctx, c, other, fk.table);
      SidesLinked(ctx, c, other, fk.table, fk);
      IntoRelation(ctx, CreateRelFKs, c, other, fk.table, ch);
    }
  }

  lemma SidesLinked(ctx: Deployment, c: ClassDef, other: ClassDef, r: string, fk: ForeignKey)
    requires ValidModel(ctx) && IsClass(ctx, c) && IsClass(ctx, other)
    ensures Adding(fk) in LinkRelation(ctx, c, other, r) <==>
              && fk.table == r && LinksSide(ctx, c, other, fk)
              && (if r in ctx.db.tables then Resets(ctx, r, c, other) else ctx.settings.referentialIntegrity)
  {
    hide ValidModel, KeyProperty, Resets, Root;
    KeyColumnName(ctx, c);
    KeyColumnName(ctx, other);
    hide KeyColumn;
    var s := LinkRelation(ctx, c, other, r);
    if s != [] {
      var x, y := s[0], s[1];
      assert s == [x, y];
    }
  }

  // Through the parts of a plan.

  /** The foreign keys before the i-th part. */
  ghost predicate HasRecord(ctx: Deployment, drops: seq<Change>, i: nat, fk: ForeignKey) {
    || (fk in ctx.db.keys && (i == 0 || !DroppingKey(drops, (fk.table, fk.name))))
    || (10 <= i && MadeForClass(ctx, fk))
    || (20 <= i && MadeForRelation(ctx, fk))
  }

  lemma PartAdds(ctx: Deployment, parts: seq<seq<Change>>, i: nat, fk: ForeignKey)
    requires ValidModel(ctx) && Emission(ctx, parts) && i < 20
    ensures i < |parts| && (Adding(fk) in parts[i] <==> (i == 9 && MadeForClass(ctx, fk)) || (i == 19 && MadeForRelation(ctx, fk)))
  {
    hide ValidModel, Emission, Emitted, Bucketed, MadeForClass, MadeForRelation;
    EmissionCount(ctx, parts);
    if i == 0 {
      DropsAreDrops(ctx, parts, Adding(fk));
    } else {
      PartMembers(ctx, parts, i);
      LinkParts(i);
      ClassTargets(ctx, fk);
      RelationTargets(ctx, fk);
      if Adding(fk) in Bucketed(ctx, Emitted()[i]) {
        BucketKind(ctx, Emitted()[i], Adding(fk));
      }
    }
  }

  lemma DropsAreDrops(ctx: Deployment, parts: seq<seq<Change>>, ch: Change)
    requires Emission(ctx, parts) && |parts| == 20
    ensures ch in parts[0] ==> ch.DropForeignKey?
  {
  }

  lemma {:induction false} RecordsOf(ctx: Deployment, parts: seq<seq<Change>>, engine: Engine, i: nat, fk: ForeignKey)
    requires Runs(ctx, parts, engine) && i <= 20 && |parts| == 20 && Run(engine, ctx.db, Flatten(parts[..i])).Some?
    ensures fk in After(ctx, parts, engine, i).keys <==> HasRecord(ctx, parts[0], i, fk)
  {
    hide ValidModel, Emission, Run, Flatten, DroppingKey, AddingKey, MadeForClass, MadeForRelation, WellFormed, Reached;
    if i == 0 {
      NothingRun(engine, ctx.db, parts);
    } else {
      StageOf(ctx, parts, engine, i - 1);
      RecordsOf(ctx, parts, engine, i - 1, fk);
      PartAdds(ctx, parts, i - 1, fk);
      var part := parts[i - 1];
      forall k ensures !(DroppingKey(part, k) && AddingKey(part, k))
        ensures i > 1 ==> !DroppingKey(part, k) {
        PartKeys(ctx, parts, i - 1, k);
      }
      RunRecords(engine, After(ctx, parts, engine, i - 1), part, fk);
    }
  }

  lemma NothingRun(engine: Engine, db: Schema, parts: seq<seq<Change>>)
    requires WellFormed(db)
    ensures Run(engine, db, Flatten(parts[..0])) == Some(db)
  {
    hide WellFormed;
    assert parts[..0] == [];
  }

  /** After a plan that runs through: exactly the old keys that were not dropped, and those made for
      references, new subclass tables and relation tables, each with the table and the column it
      refers to. */
  lemma KeysRefer(ctx: Deployment, parts: seq<seq<Change>>, engine: Engine, fk: ForeignKey)
    requires Runs(ctx, parts, engine)
    ensures fk in Run(engine, ctx.db, Flatten(parts)).value.keys <==>
              (fk in ctx.db.keys && !DroppingKey(parts[0], (fk.table, fk.name))) || MadeForClass(ctx, fk) || MadeForRelation(ctx, fk)
  {
    hide ValidModel, Emission, Run, Flatten, DroppingKey, MadeForClass, MadeForRelation;
    PartCount(ctx, parts, engine);
    assert parts[..20] == parts;
    RecordsOf(ctx, parts, engine, 20, fk);
  }
}
