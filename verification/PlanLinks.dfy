/** Which foreign keys are there after a plan that runs through. The planner drops the keys that
    refer to a table whose key it migrates or widens, and makes keys only along with columns:
    what it drops comes back if and only if its column is made anew. */
module PlanLinks {
  import opened Wrappers
  import opened PropertyTypes
  import opened Database
  import opened Batches
  import opened DeployPlan
  import opened PlanShape
  import opened PlanColumns
  import opened PlanKeys
  import PlanFits
  import opened PlanData

  /** Exactly the old keys that were not dropped, those of the columns made in class tables, and
      those of the relation tables made or reset. */
  lemma KeysAfter(ctx: Deployment, parts: seq<seq<Change>>, engine: Engine, k: (string, string))
    requires Runs(ctx, parts, engine)
    ensures k in KeyNames(Run(engine, ctx.db, Flatten(parts)).value) <==>
              (k in KeyNames(ctx.db) && !DroppingKey(parts[0], k)) || ClassKeyMade(ctx, k) || RelationKeyMade(ctx, k)
  {
    hide ValidModel, Emission, Run, Flatten, KeyNames, DroppingKey, ClassKeyMade, RelationKeyMade;
    PartCount(ctx, parts, engine);
    assert parts[..20] == parts;
    KeysOf(ctx, parts, engine, 20);
  }

  /** The key of a property is there if and only if the plan gives the property a column and links
      it, or the key was there and its name does not have to go. */
  lemma LinkAfter(ctx: Deployment, parts: seq<seq<Change>>, engine: Engine, c: ClassDef, pm: PropertyMeta)
    requires Runs(ctx, parts, engine) && DistinctKeyNames(ctx.db)
    requires IsClass(ctx, c) && (pm in Properties(ctx, c) || (!IsRoot(ctx, c) && KeyProperty(ctx, c) == Some(pm)))
    ensures var k := LinkOf(ctx, c, pm);
            k in KeyNames(Run(engine, ctx.db, Flatten(parts)).value) <==>
              Linked(ctx, c, pm) || (k in KeyNames(ctx.db) && k.1 !in AllDrops(ctx, ctx.order))
  {
    hide ValidModel, DropList, Run, Flatten, KeyNames, DroppingKey, ClassKeyMade, Properties, AllDrops;
    hide Linked, KeyProperty, DistinctKeyNames;
    var k := LinkOf(ctx, c, pm);
    KeysAfter(ctx, parts, engine, k);
    LinkedBy(ctx, c, pm);
    NoRelationTable(ctx, c, k);
    if k in KeyNames(ctx.db) {
      DroppedByName(ctx, parts[0], k);
    }
  }

  lemma NoRelationTable(ctx: Deployment, c: ClassDef, k: (string, string))
    requires ValidModel(ctx) && IsClass(ctx, c) && k.0 == Table(ctx, c)
    ensures !RelationKeyMade(ctx, k)
  {
    hide ValidModel, Relates, Resets, RelationKeyNames;
    if RelationKeyMade(ctx, k) {
      var d, other :| RelationLinked(ctx, d, other, k.0) && (k.1 == RelationKeyNames(ctx, k.0).0 || k.1 == RelationKeyNames(ctx, k.0).1);
      PlanFits.RelationIsNoClassTable(ctx, d, other, k.0);
    }
  }

  /** A key that refers to a table whose key is migrated or widened survives only where its own
      column is made anew: the references and subclass keys whose columns stay lose theirs. */
  lemma ExportedKeysLost(ctx: Deployment, parts: seq<seq<Change>>, engine: Engine, d: ClassDef, key: PropertyMeta, c: ClassDef, pm: PropertyMeta, fk: ForeignKey)
    requires Runs(ctx, parts, engine) && DistinctKeyNames(ctx.db)
    requires IsProperty(ctx, d, key) && DropsExportedKeys(ctx, d, key)
    requires fk in ctx.db.keys && fk.refTable == Table(ctx, d) && (fk.table, fk.name) == LinkOf(ctx, c, pm)
    requires IsClass(ctx, c) && (pm in Properties(ctx, c) || (!IsRoot(ctx, c) && KeyProperty(ctx, c) == Some(pm)))
    ensures LinkOf(ctx, c, pm) in KeyNames(Run(engine, ctx.db, Flatten(parts)).value) <==> Linked(ctx, c, pm)
  {
    hide Runs, Run, Flatten, KeyNames, Properties, AllDrops, Linked, KeyProperty, DistinctKeyNames;
    hide DropsExportedKeys, OwnsRelation, Table;
    LinkAfter(ctx, parts, engine, c, pm);
    var i :| 0 <= i < |ctx.db.keys| && ctx.db.keys[i] == fk;
    assert fk.name in ExportedKeys(ctx, Table(ctx, d));
    PropertyDropsAll(ctx, d, key);
  }
}
