/** One schema, two orders of the same two classes: a note refers to its boss, and the key of the boss
    is migrated together with the reference. Every plan runs through; the note keeps its boss where
    users are planned before notes, and has none where they are planned after them. */
module ReferenceOrders {
  import opened Wrappers
  import opened PropertyTypes
  import opened Database
  import opened DeployPlan
  import opened PlanShape
  import opened PlanColumns
  import opened PlanKeys
  import opened PlanFits
  import opened PlanExecutes
  import opened PlanData
  import opened PlanReferences
  import opened PlanFaults
  import opened ReferenceFaults

  /** One note, whose boss is the user 1; both columns are numeric, and are to become strings. */
  function MovedDb(): Schema {
    Schema(map["t_note" := 1, "t_user" := 1],
           map[ColRef("t_note", "f_id") := Column(KeyColumn().info, [Value("a")]), ColRef("t_note", "f_boss") := NumberColumn(),
               ColRef("t_user", "f_id") := NumberColumn()],
           [TO_USER])
  }

  function Moved(order: seq<string>): Deployment
    requires Orders(order)
  {
    BossOver(order, MovedDb())
  }

  ghost predicate IsMoved(ctx: Deployment) {
    Orders(ctx.order) && ctx == Moved(ctx.order)
  }

  lemma MovedBosses(ctx: Deployment)
    requires IsMoved(ctx)
    ensures Bosses(ctx) && ctx.db == MovedDb() && DistinctKeyNames(ctx.db)
    ensures KeyNames(ctx.db) == {("t_note", "boss_fk")}
  {
    assert (ctx.db.keys[0].table, ctx.db.keys[0].name) in KeyNames(ctx.db);
  }

  /** The boss and the key of the user move to new columns. */
  lemma MovedSituations(ctx: Deployment)
    requires IsMoved(ctx)
    ensures Migrates(ctx, SIGNED_NOTE, BOSS) && Migrates(ctx, USER_CLASS, ID)
    ensures Ref(ctx, SIGNED_NOTE, BOSS) == ColRef("t_note", "f_boss") && Ref(ctx, USER_CLASS, ID) == ColRef("t_user", "f_id")
  {
    MovedBosses(ctx);
    BossTypes(ctx);
    hide KeyProperty, Root, PropertyNames, Decide, Deployed;
    assert Table(ctx, SIGNED_NOTE) == "t_note" && Table(ctx, USER_CLASS) == "t_user";
    assert ColumnName(ctx, ID) == "f_id" && ColumnName(ctx, BOSS) == "f_boss";
  }

  lemma MovedIsFollowed(ctx: Deployment)
    requires IsMoved(ctx)
    ensures Followed(ctx, SIGNED_NOTE, BOSS) == Some("f_id") && ctx.settings.naming.column("id") == "f_id"
    ensures FollowedRef(ctx, SIGNED_NOTE, BOSS) == ColRef("t_user", "f_id")
  {
    assert "f_" + "boss" == "f_boss" && "f_" + "id" == "f_id" && "t_" + "note" == "t_note" && "t_" + "user" == "t_user";
    assert ctx.settings.naming.table(BOSS.refClass) == "t_user" && Table(ctx, SIGNED_NOTE) == "t_note";
    assert ctx.db.keys[0] == TO_USER;
  }

  lemma MovedProperties(ctx: Deployment)
    requires IsMoved(ctx)
    ensures forall c, pm | IsProperty(ctx, c, pm) && pm.kind == REFERENCE :: c == SIGNED_NOTE && pm == BOSS
    ensures IsProperty(ctx, SIGNED_NOTE, BOSS) && IsProperty(ctx, USER_CLASS, ID) && KeyProperty(ctx, USER_CLASS) == Some(ID)
  {
    hide Properties;
    MovedBosses(ctx);
    BossFacts(ctx);
    hide KeyProperty, Root, PropertyNames, Moved;
    BossProperties(ctx);
  }

  lemma MovedDeploys(ctx: Deployment)
    requires IsMoved(ctx)
    ensures ValidModel(ctx) && Deployable(ctx) && KeysFree(ctx) && DistinctKeyNames(ctx.db)
  {
    hide ValidModel, DiscriminatorReady, RelationsReady, Renamed, Followed, Linked, LinkOf, AllDrops, Properties, Bosses, KeyProperty;
    MovedBosses(ctx);
    BossIsValid(ctx);
    NoRelations(ctx);
    MovedSituations(ctx);
    MovedIsFollowed(ctx);
    MovedProperties(ctx);
    hide Migrates, IsMoved;
    RenamedRef(ctx, USER_CLASS, ID);
    BossIsLinked(ctx);
    assert "boss_fk"[0] == 'b' && "fk_note_boss"[0] == 'f';
    assert LinkOf(ctx, SIGNED_NOTE, BOSS) !in KeyNames(ctx.db);
  }

  lemma MovedFollows(ctx: Deployment)
    requires IsMoved(ctx)
    ensures Follows(ctx, SIGNED_NOTE, BOSS, USER_CLASS, ID)
  {
    hide Properties, Followed, KeyProperty, Migrates;
    MovedSituations(ctx);
    MovedIsFollowed(ctx);
    MovedProperties(ctx);
  }

  lemma UserFirst(order: seq<string>)
    requires Orders(order)
    ensures Precedes(order, "user", "note") <==> order == ["user", "note"]
  {
    assert "user"[0] == 'u' && "note"[0] == 'n';
    if order == ["user", "note"] {
      assert order[0] == "user" && order[1] == "note";
    }
  }

  /** Where users come first the note has the new key of its boss; where they come last it has none. */
  lemma OrderDecides(ctx: Deployment, parts: seq<seq<Change>>, engine: Engine)
    requires IsMoved(ctx) && Emission(ctx, parts)
    ensures WellFormed(ctx.db) && Run(engine, ctx.db, Flatten(parts)).Some?
    ensures var r, boss, id := Run(engine, ctx.db, Flatten(parts)).value, ColRef("t_note", "f_boss"), ColRef("t_user", "f_id");
            && boss in r.columns && id in r.columns && |r.columns[id].cells| == 1
            && r.columns[boss].cells == if ctx.order == ["user", "note"] then r.columns[id].cells else [Null]
  {
    hide ValidModel, Deployable, KeysFree, Emission, Run, Flatten, Migrates, KeyProperty, Properties, Followed, DistinctKeyNames, Precedes;
    MovedDeploys(ctx);
    ExecutableByNames(ctx, parts, engine);
    MovedSituations(ctx);
    MovedFollows(ctx);
    MovedProperties(ctx);
    MovedBosses(ctx);
    UserFirst(ctx.order);
    assert Runs(ctx, parts, engine);
    ReferencesFollow(ctx, parts, engine, SIGNED_NOTE, BOSS, USER_CLASS, ID);
    ScalarsCopied(ctx, parts, engine, USER_CLASS, ID);
    var new' := Run(engine, ctx.db, Flatten(parts)).value.columns[ColRef("t_user", "f_id")].cells;
    assert ctx.db.columns[ColRef("t_note", "f_boss")].cells == ctx.db.columns[ColRef("t_user", "f_id")].cells == [Value("1")];
    assert FoundCell(Value("1"), [Value("1")], new') == new'[0];
  }
}
