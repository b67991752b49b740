/** Two more schemas to which a valid model cannot be deployed, both over a reference that moves to a
    new column because the key it refers to has become a string. On one the foreign key of the old
    column has the name the new one is to get; on the other the key it refers to is not migrated by
    the plan, so the statement that fills the new column finds no saved key. */
module ReferenceFaults {
  import opened Wrappers
  import opened PropertyTypes
  import opened Database
  import opened DeployPlan
  import opened PlanShape
  import opened PlanColumns
  import opened PlanKeys
  import opened PlanFits
  import opened PlanExecutes
  import opened PlanFaults
  import Listing

  const BOSS := PropertyMeta("boss", REFERENCE, None, None, 2, false, false, "user", "", "", "")
  const SIGNED_NOTE := ClassDef("note", "", "id", [ID, BOSS])
  const USER_CLASS := ClassDef("user", "", "id", [ID])

  function KeyColumn(): Column {
    Column(ColumnInfo(VARCHAR, "varchar", 40, 0), [])
  }

  function BossColumn(): Column {
    Column(ColumnInfo(BIGINT, "bigint", 19, 0), [])
  }

  predicate Orders(order: seq<string>) {
    order == ["note", "user"] || order == ["user", "note"]
  }

  /** Notes that refer to their boss, in a given order of the classes and over a given schema. */
  function BossOver(order: seq<string>, db: Schema): Deployment
    requires Orders(order)
  {
    var ctx := Context(Settings(false, "_type", 200, true, StandardRules(200), "7", PREFIXES),
                       map["note" := SIGNED_NOTE, "user" := USER_CLASS], order, n => 0, map["note" := 0, "user" := 0], db, []);
    assert Grounded(ctx, "note") && Grounded(ctx, "user");
    ctx
  }

  ghost predicate BossSchema(db: Schema) {
    WellFormed(db) && KeysResolve(db) && forall k | k in db.columns :: k.column in {"f_id", "f_boss"}
  }

  ghost predicate Bosses(ctx: Deployment) {
    Orders(ctx.order) && ctx == BossOver(ctx.order, ctx.db) && BossSchema(ctx.db)
  }

  /** The boss column is numeric, the keys are strings; the foreign keys are given. */
  function BossDb(keys: seq<ForeignKey>): Schema {
    Schema(map["t_note" := 0, "t_user" := 0, "t_person" := 0],
           map[ColRef("t_note", "f_id") := KeyColumn(), ColRef("t_note", "f_boss") := BossColumn(),
               ColRef("t_user", "f_id") := KeyColumn(), ColRef("t_person", "f_id") := BossColumn()],
           keys)
  }

  const TO_PERSON := ForeignKey("fk_note_boss", "t_note", "f_boss", "t_person", "f_id")
  const TO_USER := ForeignKey("boss_fk", "t_note", "f_boss", "t_user", "f_id")

  /** The boss was a person and is a user now; the key has the name the planner gives it. */
  function OldLink(): Deployment {
    BossOver(["note", "user"], BossDb([TO_PERSON]))
  }

  /** The boss was a user all along, whose key is a string already. */
  function KeptKey(): Deployment {
    BossOver(["note", "user"], BossDb([TO_USER]))
  }

  ghost predicate IsBoss(ctx: Deployment) {
    ctx == BossOver(["note", "user"], BossDb(ctx.db.keys)) && OneOf(ctx.db.keys)
  }

  predicate OneOf(keys: seq<ForeignKey>) {
    keys == [TO_PERSON] || keys == [TO_USER]
  }

  lemma IsBosses(ctx: Deployment)
    requires IsBoss(ctx)
    ensures Bosses(ctx)
  {
  }

  lemma BossFacts(ctx: Deployment)
    requires Bosses(ctx)
    ensures forall c | IsClass(ctx, c) :: c == SIGNED_NOTE || c == USER_CLASS
    ensures IsClass(ctx, SIGNED_NOTE) && IsClass(ctx, USER_CLASS) && IsRoot(ctx, SIGNED_NOTE) && IsRoot(ctx, USER_CLASS)
    ensures KeyProperty(ctx, SIGNED_NOTE) == KeyProperty(ctx, USER_CLASS) == Some(ID)
    ensures Root(ctx, SIGNED_NOTE) == SIGNED_NOTE && Root(ctx, USER_CLASS) == USER_CLASS
    ensures Table(ctx, SIGNED_NOTE) == "t_note" && Table(ctx, USER_CLASS) == "t_user"
    ensures PropertyNames(ctx) == {"id", "boss", "_type"}
  {
    assert FindProperty(SIGNED_NOTE.properties, "id") == Some(ID) && FindProperty(USER_CLASS.properties, "id") == Some(ID);
    assert Root(ctx, SIGNED_NOTE) == SIGNED_NOTE && Root(ctx, USER_CLASS) == USER_CLASS;
    assert SIGNED_NOTE.properties[0] == ID && SIGNED_NOTE.properties[1] == BOSS;
    assert ctx.classes["note"].properties[0].name == "id" && ctx.classes["note"].properties[1].name == "boss";
  }

  lemma BossNames(ctx: Deployment)
    requires Bosses(ctx)
    ensures NamesApart(ctx) && forall n :: ctx.settings.naming.column(n) != "_type"
  {
    hide PropertyNames;
    var n := ctx.settings.naming;
    forall s ensures n.column(s)[2..] == s && n.table(s)[2..] == s && n.column(s)[0] == 'f' && n.table(s)[0] == 't' {
    }
    assert "_type"[0] == '_';
    forall c, p | c in ctx.classes ensures n.relation(c, p)[0] == 'r' && n.relation(c, p)[2..6] == c && n.relation(c, p)[7..] == p {
      assert n.relation(c, p) == "r_" + c + "_" + p;
    }
  }

  lemma BossSaved(ctx: Deployment, column: string)
    requires Bosses(ctx) && column in {"f_id", "f_boss"}
    ensures Saved(ctx, column) !in {"f_id", "f_boss", "f__type", "_type", "master", "detail"}
  {
    var s := Saved(ctx, column);
    assert s == "f_id_7" || s == "f_boss_7";
    assert s[0] == 'f' && s[|s| - 1] == '7';
    assert "_type"[0] == '_' && "master"[0] == 'm' && "detail"[0] == 'd' && |"f_id"| == 4 && "f_boss"[5] == 's' && |"f__type"| == 7;
  }

  lemma BossColumns(ctx: Deployment)
    requires Bosses(ctx)
    ensures forall n | n in PropertyNames(ctx) :: ctx.settings.naming.column(n) in {"f_id", "f_boss", "f__type"}
    ensures forall k | k in ctx.db.columns :: k.column in {"f_id", "f_boss"}
  {
    BossFacts(ctx);
    hide PropertyNames, KeyProperty, Root;
    assert "f_" + "id" == "f_id" && "f_" + "boss" == "f_boss" && "f_" + "_type" == "f__type";
  }

  lemma BossSuffix(ctx: Deployment)
    requires Bosses(ctx)
    ensures SuffixIsNew(ctx)
  {
    BossColumns(ctx);
    assert ctx.settings.discriminator == "_type";
    hide PropertyNames, Saved, BossOver;
    forall k | k in ctx.db.columns
      ensures ColRef(k.table, Saved(ctx, k.column)) !in ctx.db.columns
      ensures forall n | n in PropertyNames(ctx) :: ctx.settings.naming.column(n) != Saved(ctx, k.column)
      ensures Saved(ctx, k.column) != ctx.settings.discriminator && Saved(ctx, k.column) != "master" && Saved(ctx, k.column) != "detail"
    {
      BossSaved(ctx, k.column);
    }
  }

  lemma BossIsValid(ctx: Deployment)
    requires Bosses(ctx)
    ensures ValidModel(ctx)
  {
    hide NamesApart, KeyNamesApart, OutsidersApart, SuffixIsNew, PropertyNames, Resolvable, KeyDeclaredOnce;
    BossResolves(ctx);
    BossNames(ctx);
    KeyNamesDiffer(ctx);
    BossSuffix(ctx);
    BossInside(ctx);
  }

  lemma BossResolves(ctx: Deployment)
    requires Bosses(ctx)
    ensures Resolvable(ctx) && forall c | IsClass(ctx, c) :: KeyDeclaredOnce(ctx, c)
  {
    hide OneOf, PropertyNames;
    BossFacts(ctx);
    hide KeyProperty, Root;
    assert ResolvableClass(ctx, SIGNED_NOTE) && ResolvableClass(ctx, USER_CLASS);
    assert KeyDeclaredOnce(ctx, SIGNED_NOTE) && KeyDeclaredOnce(ctx, USER_CLASS);
  }

  lemma BossInside(ctx: Deployment)
    requires Bosses(ctx)
    ensures OutsidersApart(ctx)
  {
    hide Properties, PropertyNames, KeyProperty, Root;
    BossFacts(ctx);
    BossProperties(ctx);
  }

  /** Without a discriminator the properties are the declared ones. */
  lemma PlainProperties(ctx: Deployment, c: ClassDef)
    requires !ctx.settings.useDiscriminator
    ensures forall p :: p in Properties(ctx, c) <==> p in c.properties
  {
    hide Listing.Sort;
    assert Properties(ctx, c) == Listing.Sort(c.properties, NotAfter);
    Listing.SortPermutes(c.properties, NotAfter);
    Listing.SameElements(Properties(ctx, c), c.properties);
  }

  lemma BossProperties(ctx: Deployment)
    requires Bosses(ctx)
    ensures forall p :: p in Properties(ctx, SIGNED_NOTE) <==> p == ID || p == BOSS
    ensures forall p :: p in Properties(ctx, USER_CLASS) <==> p == ID
  {
    assert !ctx.settings.useDiscriminator;
    hide Properties, BossOver;
    PlainProperties(ctx, SIGNED_NOTE);
    PlainProperties(ctx, USER_CLASS);
  }

  /** The boss moves to a new column, the keys of both classes stay. */
  lemma BossSituations(ctx: Deployment)
    requires IsBoss(ctx)
    ensures SituationOf(ctx, SIGNED_NOTE, BOSS) == Present(BossColumn().info, Migrate)
    ensures SituationOf(ctx, SIGNED_NOTE, ID) == SituationOf(ctx, USER_CLASS, ID) == Present(KeyColumn().info, Keep)
  {
    IsBosses(ctx);
    hide OneOf;
    BossTypes(ctx);
    hide KeyProperty, Root, PropertyNames, Decide, Deployed;
    assert Table(ctx, SIGNED_NOTE) == "t_note" && Table(ctx, USER_CLASS) == "t_user";
    assert ColumnName(ctx, ID) == "f_id" && ColumnName(ctx, BOSS) == "f_boss";
  }

  lemma BossTypes(ctx: Deployment)
    requires Bosses(ctx)
    ensures Deployed(ctx, BOSS) == Deployed(ctx, ID) == ID
    ensures Decide(BOSS, ID, BossColumn().info, 200) == Migrate && Decide(ID, ID, KeyColumn().info, 200) == Keep
  {
    assert FindProperty(USER_CLASS.properties, "id") == Some(ID);
    assert Root(ctx, USER_CLASS) == USER_CLASS;
  }

  lemma {:induction false} NothingDropped(ctx: Deployment, c: ClassDef, ps: seq<PropertyMeta>)
    requires forall p | p in ps :: PropertyDrops(ctx, c, p) == {}
    ensures ClassDrops(ctx, c, ps) == {}
  {
    hide PropertyDrops;
    if ps != [] {
      NothingDropped(ctx, c, ps[..|ps| - 1]);
    }
  }

  lemma BossDropsNothing(ctx: Deployment)
    requires IsBoss(ctx)
    ensures AllDrops(ctx, ctx.order) == {}
  {
    IsBosses(ctx);
    BossProperties(ctx);
    KeptDropNothing(ctx);
    assert ctx.order == ["note", "user"] && ctx.classes["note"] == SIGNED_NOTE && ctx.classes["user"] == USER_CLASS;
    hide Properties, PropertyDrops, ClassDrops, BossOver;
    NothingDropped(ctx, SIGNED_NOTE, Properties(ctx, SIGNED_NOTE));
    NothingDropped(ctx, USER_CLASS, Properties(ctx, USER_CLASS));
    assert ctx.order[..1] == ["note"] && ctx.order[..1][..0] == [];
    assert AllDrops(ctx, ["note"]) == {};
  }

  lemma DropsNothing(ctx: Deployment, c: ClassDef, pm: PropertyMeta)
    requires !DropsExportedKeys(ctx, c, pm) && pm.kind != COLLECTION
    ensures PropertyDrops(ctx, c, pm) == {}
  {
    hide DropsExportedKeys;
  }

  lemma KeptDropNothing(ctx: Deployment)
    requires IsBoss(ctx)
    ensures PropertyDrops(ctx, SIGNED_NOTE, ID) == PropertyDrops(ctx, SIGNED_NOTE, BOSS) == PropertyDrops(ctx, USER_CLASS, ID) == {}
  {
    hide SituationOf, OneOf, PropertyDrops, ExportedKeys;
    IsBosses(ctx);
    BossSituations(ctx);
    assert !IsKey(ctx, SIGNED_NOTE, "boss") by { BossFacts(ctx); }
    hide BossOver, Root;
    DropsNothing(ctx, SIGNED_NOTE, ID);
    DropsNothing(ctx, SIGNED_NOTE, BOSS);
    DropsNothing(ctx, USER_CLASS, ID);
  }

  lemma NoRelations(ctx: Deployment)
    requires Bosses(ctx)
    ensures DiscriminatorReady(ctx) && RelationsReady(ctx)
  {
    hide Properties, SituationOf;
    BossProperties(ctx);
    BossFacts(ctx);
    hide PropertyNames, KeyProperty, Root;
    forall c, other, r ensures !Relates(ctx, c, other, r) {
    }
  }

  /** Only the boss is linked by a foreign key. */
  lemma BossKeys(ctx: Deployment)
    requires Bosses(ctx)
    ensures ForeignKeys(ctx, SIGNED_NOTE, ID) == [] && ForeignKeys(ctx, USER_CLASS, ID) == [] && ForeignKeys(ctx, SIGNED_NOTE, BOSS) != []
  {
    BossFacts(ctx);
    hide PropertyNames, KeyProperty, Root;
    assert Find(ctx, "user") == Some(USER_CLASS);
    assert SIGNED_NOTE.properties[0].name == "id" && USER_CLASS.properties[0].name == "id";
  }

  lemma BossIsLinked(ctx: Deployment)
    requires Bosses(ctx) && Migrates(ctx, SIGNED_NOTE, BOSS)
    ensures forall c, pm :: Linked(ctx, c, pm) <==> c == SIGNED_NOTE && pm == BOSS
    ensures LinkOf(ctx, SIGNED_NOTE, BOSS) == ("t_note", "fk_note_boss")
  {
    hide Properties, ForeignKeys, Bosses, KeyProperty, GetsColumn, GetsKeyColumn, IsClass, LinkOf, Migrates;
    BossKeys(ctx);
    BossProperties(ctx);
    OnlyRoots(ctx);
    MigratedGetsColumn(ctx, SIGNED_NOTE, BOSS);
    BossLink(ctx);
  }

  lemma MigratedGetsColumn(ctx: Deployment, c: ClassDef, pm: PropertyMeta)
    requires Migrates(ctx, c, pm) && pm.kind != COLLECTION
    ensures GetsColumn(ctx, c, pm)
  {
  }

  lemma BossLink(ctx: Deployment)
    requires Bosses(ctx)
    ensures LinkOf(ctx, SIGNED_NOTE, BOSS) == ("t_note", "fk_note_boss")
  {
    assert "fk_" + "note" + "_" + "boss" == "fk_note_boss" && "t_" + "note" == "t_note";
  }

  lemma OnlyRoots(ctx: Deployment)
    requires Bosses(ctx)
    ensures forall c | IsClass(ctx, c) :: (c == SIGNED_NOTE || c == USER_CLASS) && !GetsKeyColumn(ctx, c)
    ensures IsClass(ctx, SIGNED_NOTE) && IsClass(ctx, USER_CLASS)
  {
    BossFacts(ctx);
    hide KeyProperty, PropertyNames, Root, BossOver;
  }

  lemma BossIsFollowed(ctx: Deployment)
    requires IsBoss(ctx)
    ensures Followed(ctx, SIGNED_NOTE, BOSS) == if ctx.db.keys == [TO_PERSON] then None else Some("f_id")
    ensures ctx.db.keys == [TO_USER] ==> FollowedRef(ctx, SIGNED_NOTE, BOSS) == Ref(ctx, USER_CLASS, ID)
  {
    assert "f_" + "boss" == "f_boss" && "f_" + "id" == "f_id" && "t_" + "note" == "t_note" && "t_" + "user" == "t_user";
    assert ctx.settings.naming.table(BOSS.refClass) == "t_user" && Table(ctx, SIGNED_NOTE) == "t_note";
    assert "t_person"[2] == 'p' && "t_user"[2] == 'u';
    KeysDiffer();
    if ctx.db.keys == [TO_PERSON] {
      assert TO_PERSON.table == "t_note" && TO_PERSON.column == "f_boss" && TO_PERSON.refTable != "t_user";
    }
  }

  lemma KeysDiffer()
    ensures [TO_PERSON] != [TO_USER]
  {
    assert TO_PERSON.refTable[2] == 'p' && TO_USER.refTable[2] == 'u';
    assert [TO_PERSON][0] != [TO_USER][0];
  }

  lemma KeyNamesOf(ctx: Deployment)
    requires IsBoss(ctx)
    ensures KeyNames(ctx.db) == {("t_note", if ctx.db.keys == [TO_PERSON] then "fk_note_boss" else "boss_fk")}
  {
    KeysDiffer();
    assert (ctx.db.keys[0].table, ctx.db.keys[0].name) in KeyNames(ctx.db);
  }

  lemma OneKey(ctx: Deployment)
    requires IsBoss(ctx)
    ensures DistinctKeyNames(ctx.db)
  {
  }

  lemma OnlyBossRefers(ctx: Deployment)
    requires IsBoss(ctx)
    ensures forall c, pm | IsProperty(ctx, c, pm) && pm.kind == REFERENCE :: c == SIGNED_NOTE && pm == BOSS
    ensures IsProperty(ctx, SIGNED_NOTE, BOSS) && Migrates(ctx, SIGNED_NOTE, BOSS)
    ensures IsProperty(ctx, USER_CLASS, ID) && !Migrates(ctx, USER_CLASS, ID)
  {
    IsBosses(ctx);
    hide OneOf;
    hide Properties, SituationOf;
    BossFacts(ctx);
    hide KeyProperty, Root, PropertyNames;
    BossProperties(ctx);
    BossSituations(ctx);
  }

  lemma NothingToFollow(ctx: Deployment)
    requires IsBoss(ctx) && ctx.db.keys == [TO_PERSON]
    ensures ReferencesReady(ctx)
  {
    hide IsProperty, Renamed, Followed, BossOver;
    OnlyBossRefers(ctx);
    BossIsFollowed(ctx);
  }

  lemma NameIsTaken(ctx: Deployment)
    requires IsBoss(ctx) && ctx.db.keys == [TO_PERSON]
    ensures !KeysFree(ctx)
  {
    hide Linked, LinkOf, AllDrops, BossOver;
    BossDropsNothing(ctx);
    IsBosses(ctx);
    OnlyBossRefers(ctx);
    BossIsLinked(ctx);
    KeyNamesOf(ctx);
    assert Linked(ctx, SIGNED_NOTE, BOSS) && LinkOf(ctx, SIGNED_NOTE, BOSS) in KeyNames(ctx.db);
    assert LinkOf(ctx, SIGNED_NOTE, BOSS).1 !in AllDrops(ctx, ctx.order);
  }

  lemma KeyStays(ctx: Deployment)
    requires IsBoss(ctx) && ctx.db.keys == [TO_USER]
    ensures !ReferencesReady(ctx)
  {
    IsBosses(ctx);
    hide IsProperty, Renamed, Followed, BossOver, ValidModel;
    BossIsValid(ctx);
    KeysDiffer();
    OnlyBossRefers(ctx);
    BossIsFollowed(ctx);
    RenamedRef(ctx, USER_CLASS, ID);
    assert Followed(ctx, SIGNED_NOTE, BOSS).Some? && !Renamed(ctx, FollowedRef(ctx, SIGNED_NOTE, BOSS));
  }

  lemma NameIsFree(ctx: Deployment)
    requires IsBoss(ctx) && ctx.db.keys == [TO_USER]
    ensures KeysFree(ctx)
  {
    hide Linked, LinkOf, AllDrops, BossOver;
    KeysDiffer();
    IsBosses(ctx);
    OnlyBossRefers(ctx);
    BossIsLinked(ctx);
    KeyNamesOf(ctx);
    assert "boss_fk"[0] == 'b' && "fk_note_boss"[0] == 'f';
    assert LinkOf(ctx, SIGNED_NOTE, BOSS) !in KeyNames(ctx.db);
  }

  /** The foreign key of the new column is to have the name of the one that stays with the old column. */
  lemma OldLinkBlocks()
    ensures ValidModel(OldLink()) && DistinctKeyNames(OldLink().db) && !KeysFree(OldLink())
    ensures DiscriminatorReady(OldLink()) && RelationsReady(OldLink()) && ReferencesReady(OldLink())
  {
    hide ValidModel, DiscriminatorReady, RelationsReady, ReferencesReady, KeysFree, DistinctKeyNames;
    var ctx := OldLink();
    assert IsBoss(ctx) && ctx.db.keys == [TO_PERSON];
    IsBosses(ctx);
    BossIsValid(ctx);
    NoRelations(ctx);
    NothingToFollow(ctx);
    NameIsTaken(ctx);
    OneKey(ctx);
  }

  /** The statement that fills the new column looks for the saved key of the user, who keeps the key. */
  lemma KeptKeyBlocks()
    ensures ValidModel(KeptKey()) && DistinctKeyNames(KeptKey().db) && KeysFree(KeptKey())
    ensures DiscriminatorReady(KeptKey()) && RelationsReady(KeptKey()) && !ReferencesReady(KeptKey())
  {
    hide ValidModel, DiscriminatorReady, RelationsReady, ReferencesReady, KeysFree, DistinctKeyNames;
    var ctx := KeptKey();
    assert IsBoss(ctx) && ctx.db.keys == [TO_USER];
    IsBosses(ctx);
    BossIsValid(ctx);
    NoRelations(ctx);
    KeyStays(ctx);
    NameIsFree(ctx);
    OneKey(ctx);
  }

  /** No emitted plan runs through on either schema. */
  lemma ReferencePlansStop(ctx: Deployment, parts: seq<seq<Change>>, engine: Engine)
    requires ctx == OldLink() || ctx == KeptKey()
    requires Emission(ctx, parts)
    ensures WellFormed(ctx.db) && Run(engine, ctx.db, Flatten(parts)).None?
  {
    hide ValidModel, DiscriminatorReady, RelationsReady, ReferencesReady, KeysFree, Emission, Run, Flatten, DistinctKeyNames;
    OldLinkBlocks();
    KeptKeyBlocks();
    hide OldLink, KeptKey;
    ExecutableByNames(ctx, parts, engine);
  }
}
