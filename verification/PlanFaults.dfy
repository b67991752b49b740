/** Concrete schemas on which a valid model fares badly. Two to which it cannot be deployed: the
    first two parts of the condition under which a plan runs through can fail; an empty database is
    always fine. And one on which the plan runs through and the new discriminator is wrong, because the
    key is migrated in the same plan. Names differ by their prefixes only. */
module PlanFaults {
  import opened Wrappers
  import opened PropertyTypes
  import opened Database
  import opened DeployPlan
  import opened PlanShape
  import opened PlanColumns
  import opened PlanRuns
  import opened PlanKeys
  import opened PlanFits
  import opened PlanExecutes
  import opened PlanData
  import opened PlanBackfill
  import opened InheritanceLevels
  import opened DiscriminatorBackfill
  import opened ModelDeploying
  import Listing

  const ID := PropertyMeta("id", STRING, Some(40), None, 1, false, true, "", "", "", "")
  const ITEMS := PropertyMeta("items", COLLECTION, None, None, 2, false, false, "", "note", "", "")
  const NOTE := ClassDef("note", "", "id", [ID, ITEMS])
  const PREFIXES := Naming(n => "t_" + n, n => "f_" + n, (c, p) => "r_" + c + "_" + p, (c, p) => "fk_" + c + "_" + p, (c, p) => "i_" + p)

  /** A class with a key and a collection of its own kind, against a given schema. */
  function NotesOver(db: Schema): Deployment {
    var ctx := Context(Settings(true, "_type", 200, true, StandardRules(200), "7", PREFIXES), map["note" := NOTE], ["note"], n => 0, map["note" := 0], db, []);
    assert Grounded(ctx, "note");
    ctx
  }

  function TextColumn(): Column {
    Column(ColumnInfo(CLOB, "text", 0, 0), [])
  }

  /** The discriminator column is there and holds unbounded text. */
  function OldDiscriminator(): Deployment {
    NotesOver(Schema(map["t_note" := 0], map[ColRef("t_note", "_type") := TextColumn()], []))
  }

  /** The relation table has lost its detail column, and master holds unbounded text. */
  function HalfRelation(): Deployment {
    NotesOver(Schema(map["r_note_items" := 0], map[ColRef("r_note_items", "master") := TextColumn()], []))
  }

  lemma NoteNames(ctx: Deployment)
    requires ctx == NotesOver(ctx.db)
    ensures PropertyNames(ctx) == {"id", "items", "_type"}
  {
    assert NOTE.properties[0] == ID && NOTE.properties[1] == ITEMS;
    assert ctx.classes["note"].properties[0].name == "id" && ctx.classes["note"].properties[1].name == "items";
  }

  /** Where no class declares a reference. */
  ghost predicate Unreferring(ctx: Deployment) {
    forall n, i | n in ctx.classes && 0 <= i < |ctx.classes[n].properties| :: ctx.classes[n].properties[i].kind != REFERENCE
  }

  lemma NoReference(ctx: Deployment, c: ClassDef, pm: PropertyMeta)
    requires Resolvable(ctx) && Unreferring(ctx) && IsProperty(ctx, c, pm)
    ensures pm.kind != REFERENCE
  {
    hide Properties, KeyProperty;
    assert ResolvableClass(ctx, ctx.classes[c.name]);
    PropertiesFacts(ctx, c);
  }

  lemma NoOutsiders(ctx: Deployment)
    requires Resolvable(ctx) && Unreferring(ctx)
    ensures OutsidersApart(ctx)
  {
    hide Resolvable, Unreferring, IsProperty;
    forall c, pm | IsProperty(ctx, c, pm) ensures pm.kind != REFERENCE {
      NoReference(ctx, c, pm);
    }
  }

  /** Then no copy follows a reference. */
  lemma NothingFollowed(ctx: Deployment)
    requires ValidModel(ctx) && Unreferring(ctx)
    ensures ReferencesReady(ctx)
  {
    hide Unreferring, IsProperty, NamesApart, KeyNamesApart, OutsidersApart, SuffixIsNew, KeyDeclaredOnce, Resolvable, Followed, Renamed;
    forall c, pm | IsProperty(ctx, c, pm) ensures pm.kind != REFERENCE {
      NoReference(ctx, c, pm);
    }
  }

  lemma NotesAreValid(db: Schema)
    requires WellFormed(db) && db.keys == [] && forall k | k in db.columns :: k.column in {"_type", "master"}
    ensures ValidModel(NotesOver(db))
  {
    hide PropertyNames, NamesApart, KeyNamesApart, OutsidersApart, SuffixIsNew, KeyDeclaredOnce, ResolvableClass;
    var ctx := NotesOver(db);
    NoteNames(ctx);
    KeyIsId(ctx);
    NoOutsiders(ctx);
    NamesDiffer(ctx);
    SuffixDiffers(ctx);
  }

  lemma KeyIsId(ctx: Deployment)
    requires ctx == NotesOver(ctx.db)
    ensures KeyProperty(ctx, NOTE) == Some(ID) && ResolvableClass(ctx, NOTE) && KeyDeclaredOnce(ctx, NOTE)
  {
    assert FindProperty(NOTE.properties, "id") == Some(ID);
  }

  lemma NamesDiffer(ctx: Deployment)
    requires ctx.classes.Keys == {"note"} && ctx.settings.naming == PREFIXES
    ensures NamesApart(ctx) && KeyNamesApart(ctx) && forall n :: ctx.settings.naming.column(n) != "_type"
  {
    hide PropertyNames, KeyNamesApart;
    KeyNamesDiffer(ctx);
    var n := ctx.settings.naming;
    forall s ensures n.column(s)[2..] == s && n.table(s)[2..] == s && n.relation("note", s)[7..] == s {
    }
    forall s ensures n.column(s) != "_type" && n.relation("note", s) != n.table("note") {
      assert n.column(s)[0] == 'f' && n.relation("note", s)[0] == 'r' && n.table("note")[0] == 't';
    }
  }

  lemma KeyNamesDiffer(ctx: Deployment)
    requires ctx.settings.naming == PREFIXES
    ensures KeyNamesApart(ctx)
  {
    hide PropertyNames;
    var n := ctx.settings.naming;
    forall c, p ensures n.foreignKey(c, p)[|c| + 4..] == p {
      assert n.foreignKey(c, p) == ("fk_" + c + "_") + p;
    }
    forall c, p ensures n.foreignKey(n.relation(c, p), "master") != n.foreignKey(n.relation(c, p), "detail") {
      assert n.foreignKey(n.relation(c, p), "master")[|n.relation(c, p)| + 4..] == "master";
      assert n.foreignKey(n.relation(c, p), "detail")[|n.relation(c, p)| + 4..] == "detail";
    }
  }

  lemma SuffixDiffers(ctx: Deployment)
    requires PropertyNames(ctx) == {"id", "items", "_type"} && ctx.settings.naming == PREFIXES
    requires ctx.settings.discriminator == "_type" && ctx.settings.changeLogId == "7"
    requires forall k | k in ctx.db.columns :: k.column in {"_type", "master"}
    ensures SuffixIsNew(ctx)
  {
    forall k | k in ctx.db.columns
      ensures ColRef(k.table, Saved(ctx, k.column)) !in ctx.db.columns
      ensures forall n | n in PropertyNames(ctx) :: ctx.settings.naming.column(n) != Saved(ctx, k.column)
      ensures Saved(ctx, k.column) != ctx.settings.discriminator && Saved(ctx, k.column) != "master" && Saved(ctx, k.column) != "detail"
    {
      var s := Saved(ctx, k.column);
      assert s == "_type_7" || s == "master_7";
      assert s[|s| - 1] == '7' && s[0] != 'f';
      assert "_type"[4] == 'e' && "master"[5] == 'r' && "detail"[5] == 'l';
      forall n | n in PropertyNames(ctx) ensures ctx.settings.naming.column(n) != s {
        assert ctx.settings.naming.column(n)[0] == 'f';
      }
    }
  }

  lemma NoRelationTable(ctx: Deployment)
    requires ctx == NotesOver(ctx.db) && ctx.db.tables.Keys == {"t_note"}
    ensures RelationsReady(ctx)
  {
    hide Properties, PropertyNames, KeyProperty, OwnsRelation;
    assert forall c | IsClass(ctx, c) :: c == NOTE;
    forall c, other, r | Relates(ctx, c, other, r) ensures r !in ctx.db.tables {
      assert r[0] == 'r' && "t_note"[0] == 't';
    }
  }

  /** A valid model over an existing discriminator column of an unsuitable type is not deployable. */
  lemma OldDiscriminatorBlocks()
    ensures ValidModel(OldDiscriminator()) && !DiscriminatorReady(OldDiscriminator())
    ensures RelationsReady(OldDiscriminator()) && ReferencesReady(OldDiscriminator())
  {
    hide ValidModel, Properties, PropertyNames, KeyProperty, OwnsRelation, ReferencesReady, RelationsReady;
    var ctx := OldDiscriminator();
    NotesAreValid(ctx.db);
    NothingFollowed(ctx);
    NoRelationTable(ctx);
    var d := DiscriminatorProperty(ctx.settings);
    assert IsClass(ctx, NOTE) && IsRoot(ctx, NOTE);
    assert Table(ctx, NOTE) == "t_note" && ColumnName(ctx, d) == "_type";
    assert SituationOf(ctx, NOTE, d) == Present(TextColumn().info, Migrate);
    assert Migrates(ctx, NOTE, d);
  }

  /** A valid model over a relation table that lacks one of its columns is not deployable. */
  lemma HalfRelationBlocks()
    ensures ValidModel(HalfRelation()) && !RelationsReady(HalfRelation())
    ensures DiscriminatorReady(HalfRelation()) && ReferencesReady(HalfRelation())
  {
    hide Relates, Properties, ValidModel, KeyProperty, PropertyNames, ReferencesReady;
    var ctx := HalfRelation();
    NotesAreValid(ctx.db);
    NothingFollowed(ctx);
    assert "t_note"[0] == 't' && "r_note_items"[0] == 'r';
    NoteRelates(ctx);
    assert DiscriminatorReady(ctx);
    KeyIsId(ctx);
    assert SideDecision(ctx, "r_note_items", "master", NOTE) == Some(Migrate);
    assert ColRef("r_note_items", "detail") !in ctx.db.columns;
  }

  lemma ItemsIsProperty(ctx: Deployment)
    requires ctx == NotesOver(ctx.db)
    ensures IsProperty(ctx, NOTE, ITEMS)
  {
    hide Listing.Sort;
    assert IsClass(ctx, NOTE) && IsRoot(ctx, NOTE);
    var d := DiscriminatorProperty(ctx.settings);
    var ps := Unsorted(ctx, NOTE);
    assert Without([ITEMS], "_type") == [ITEMS] && NOTE.properties[1..] == [ITEMS];
    assert Without(NOTE.properties, "_type") == NOTE.properties;
    assert ITEMS == ps[2];
    Listing.SortPermutes(ps, NotAfter);
    assert Properties(ctx, NOTE) == Listing.Sort(ps, NotAfter);
  }

  lemma NoteRelates(ctx: Deployment)
    requires ctx == NotesOver(ctx.db) && "t_note" !in ctx.db.tables
    ensures Table(ctx, NOTE) == "t_note" && Relates(ctx, NOTE, NOTE, "r_note_items")
    ensures forall c | IsClass(ctx, c) :: c == NOTE
  {
    hide Properties;
    ItemsIsProperty(ctx);
    assert Table(ctx, NOTE) == "t_note";
    assert Relation(ctx, NOTE, ITEMS) == "r_note_items";
    assert SituationOf(ctx, NOTE, ITEMS) == Fresh;
    assert OwnsRelation(ctx, NOTE, ITEMS);
    assert Find(ctx, ITEMS.itemsClass) == Some(NOTE);
  }

  /** No emitted plan runs through on either schema. */
  lemma BlockedPlansStop(ctx: Deployment, parts: seq<seq<Change>>, engine: Engine)
    requires ctx == OldDiscriminator() || ctx == HalfRelation()
    requires Emission(ctx, parts)
    ensures WellFormed(ctx.db) && Run(engine, ctx.db, Flatten(parts)).None?
  {
    hide ValidModel, DiscriminatorReady, RelationsReady, ReferencesReady, KeysFree, Emission, Run, Flatten;
    OldDiscriminatorBlocks();
    HalfRelationBlocks();
    Executable(ctx, parts, engine);
  }

  lemma NothingMigrates(ctx: Deployment)
    requires ctx.db.tables == map[]
    ensures ReferencesReady(ctx)
  {
    hide Properties, Followed, Renamed;
  }

  /** Into an empty database the plan of every valid model runs through. */
  lemma EmptyDatabaseDeploys(ctx: Deployment, parts: seq<seq<Change>>, engine: Engine)
    requires ValidModel(ctx) && Emission(ctx, parts) && ctx.db.tables == map[]
    ensures WellFormed(ctx.db) && Run(engine, ctx.db, Flatten(parts)).Some?
  {
    hide ValidModel, Emission, Run, Flatten, Relates, Resets, ClassKeyMade, RelationKeyMade, ReferencesReady;
    Executable(ctx, parts, engine);
    NothingMigrates(ctx);
    forall k ensures k !in KeyNames(ctx.db) {
    }
  }

  // A key that is migrated together with a new discriminator.

  const BARE_NOTE := ClassDef("note", "", "id", [ID])
  const MEMO := ClassDef("memo", "note", "id", [])

  function NumberColumn(): Column {
    Column(ColumnInfo(BIGINT, "bigint", 19, 0), [Value("1")])
  }

  /** A note that is a memo, under numeric keys that are to become strings; no discriminator yet. */
  function MemosOver(db: Schema): Deployment {
    var ctx := Context(Settings(true, "_type", 200, true, StandardRules(200), "7", PREFIXES),
                       map["note" := BARE_NOTE, "memo" := MEMO], ["note", "memo"], n => 0, map["note" := 0, "memo" := 1], db, []);
    assert Grounded(ctx, "note") && Grounded(ctx, "memo");
    ctx
  }

  function NumericKeys(): Schema {
    Schema(map["t_note" := 1, "t_memo" := 1],
           map[ColRef("t_note", "f_id") := NumberColumn(), ColRef("t_memo", "f_id") := NumberColumn()], [])
  }

  lemma MemoFacts(ctx: Deployment)
    requires ctx == MemosOver(NumericKeys())
    ensures forall c | IsClass(ctx, c) :: c == BARE_NOTE || c == MEMO
    ensures IsClass(ctx, BARE_NOTE) && IsClass(ctx, MEMO) && IsRoot(ctx, BARE_NOTE) && !IsRoot(ctx, MEMO)
    ensures KeyProperty(ctx, BARE_NOTE) == KeyProperty(ctx, MEMO) == Some(ID) && Root(ctx, MEMO) == BARE_NOTE
    ensures Table(ctx, BARE_NOTE) == "t_note" && Table(ctx, MEMO) == "t_memo" && KeyName(ctx, BARE_NOTE) == "f_id"
  {
    assert FindProperty(BARE_NOTE.properties, "id") == Some(ID);
    assert Ancestor(ctx, MEMO) == Some(BARE_NOTE) && Root(ctx, BARE_NOTE) == BARE_NOTE;
    assert Root(ctx, MEMO) == BARE_NOTE;
  }

  lemma MemosResolve(ctx: Deployment)
    requires ctx == MemosOver(NumericKeys())
    ensures Resolvable(ctx) && forall c | IsClass(ctx, c) :: KeyDeclaredOnce(ctx, c)
  {
    MemoFacts(ctx);
    hide KeyProperty, Root;
    assert ResolvableClass(ctx, BARE_NOTE) && ResolvableClass(ctx, MEMO);
    assert KeyDeclaredOnce(ctx, BARE_NOTE) && KeyDeclaredOnce(ctx, MEMO);
  }

  lemma MemosNamesDiffer(ctx: Deployment)
    requires ctx == MemosOver(NumericKeys())
    ensures NamesApart(ctx) && KeyNamesApart(ctx)
    ensures (forall n | n in PropertyNames(ctx) :: ctx.settings.naming.column(n) != "_type") && SuffixIsNew(ctx)
  {
    hide PropertyNames, KeyNamesApart;
    KeyNamesDiffer(ctx);
    var n := ctx.settings.naming;
    forall s ensures n.column(s)[2..] == s && n.table(s)[2..] == s && n.column(s)[0] == 'f' && n.table(s)[0] == 't' {
    }
    forall c, p | c in ctx.classes ensures n.relation(c, p)[0] == 'r' && n.relation(c, p)[2..6] == c && n.relation(c, p)[7..] == p {
      assert n.relation(c, p) == "r_" + c + "_" + p;
    }
    NoSavedName(ctx);
  }

  lemma NoSavedName(ctx: Deployment)
    requires ctx == MemosOver(NumericKeys())
    ensures SuffixIsNew(ctx)
  {
    forall k | k in ctx.db.columns
      ensures ColRef(k.table, Saved(ctx, k.column)) !in ctx.db.columns
      ensures forall n | n in PropertyNames(ctx) :: ctx.settings.naming.column(n) != Saved(ctx, k.column)
      ensures Saved(ctx, k.column) != ctx.settings.discriminator && Saved(ctx, k.column) != "master" && Saved(ctx, k.column) != "detail"
    {
      var s := Saved(ctx, k.column);
      assert s == "f_id_7" && |s| == 6 && s[0] == 'f' && s[5] == '7';
      assert "_type"[0] == '_' && "master"[0] == 'm' && "detail"[0] == 'd' && |"f_id"| == 4;
      MemoNames(ctx);
      assert "f_" + "id" == "f_id" && "f_" + "_type" == "f__type" && |"f__type"| == 7;
    }
  }

  lemma MemoNames(ctx: Deployment)
    requires ctx == MemosOver(NumericKeys())
    ensures forall n | n in PropertyNames(ctx) :: n == "id" || n == "_type"
  {
  }

  lemma MemosAreValid(ctx: Deployment)
    requires ctx == MemosOver(NumericKeys())
    ensures ValidModel(ctx)
  {
    hide Resolvable, NamesApart, KeyNamesApart, OutsidersApart, SuffixIsNew, KeyDeclaredOnce, PropertyNames;
    MemosResolve(ctx);
    MemosNamesDiffer(ctx);
    NoOutsiders(ctx);
  }

  lemma MemosDeploy(ctx: Deployment)
    requires ctx == MemosOver(NumericKeys())
    ensures Deployable(ctx)
  {
    hide Properties, ValidModel, ReferencesReady;
    MemosAreValid(ctx);
    NothingFollowed(ctx);
    MemoFacts(ctx);
    assert ColumnName(ctx, DiscriminatorProperty(ctx.settings)) == "_type";
    assert ColRef("t_note", "_type") !in ctx.db.columns;
    forall c, other, r | Relates(ctx, c, other, r) ensures false {
      var pm :| IsProperty(ctx, c, pm) && OwnsRelation(ctx, c, pm);
      NoCollections(ctx, c, pm);
      assert false;
    }
  }

  lemma MemosHaveNoKeys(ctx: Deployment, drops: seq<Change>)
    requires ctx == MemosOver(NumericKeys())
    ensures KeysReady(ctx, drops)
  {
    hide ClassKeyMade, RelationKeyMade;
    assert KeyNames(ctx.db) == {};
  }

  lemma NoCollections(ctx: Deployment, c: ClassDef, pm: PropertyMeta)
    requires ctx == MemosOver(NumericKeys()) && IsProperty(ctx, c, pm)
    ensures pm.kind != COLLECTION
  {
    hide Properties, KeyProperty, ValidModel, Root;
    MemosAreValid(ctx);
    MemoFacts(ctx);
    ClassFacts(ctx, c);
  }

  /** The rows: the note is a memo, and its key is about to be migrated. */
  lemma MemoRow(ctx: Deployment)
    requires ctx == MemosOver(NumericKeys())
    ensures GetsBackfill(ctx, BARE_NOTE, DiscriminatorProperty(ctx.settings)) && KeyIsNew(ctx, BARE_NOTE)
    ensures OldKey(ctx, BARE_NOTE, 0) == Value("1")
    ensures var key := Value("1");
            && Nested(ctx, ctx.db.columns, "f_id", "note", key) && SiblingsApart(ctx, ctx.db.columns, "f_id", "note", key)
            && MostDerived(ctx, ctx.db.columns, "f_id", "note", key, "memo") && !MostDerived(ctx, ctx.db.columns, "f_id", "note", key, "note")
  {
    MemoFacts(ctx);
    assert ColumnName(ctx, DiscriminatorProperty(ctx.settings)) == "_type";
    assert ColumnName(ctx, ID) == "f_id" by { assert "f_" + "id" == "f_id"; }
    assert SituationOf(ctx, BARE_NOTE, ID) == Present(NumberColumn().info, Migrate);
    var key := Value("1");
    assert forall n, m :: IsChild(ctx, n, m) ==> (n == "note" && m == "memo") || m == "note";
    assert IsChild(ctx, "note", "memo") && StepsBelow(ctx, "memo", "note") == Some(0);
    assert ctx.settings.naming.table("memo") == "t_memo";
    assert key in NumberColumn().cells;
    assert InTable(ctx, ctx.db.columns, "f_id", key, "memo");
    assert Holds(ctx, ctx.db.columns, "f_id", "note", key, "memo");
  }

  /** Every plan over these tables runs through and calls the memo a note. */
  lemma MigratedKeyHidesSubclasses(ctx: Deployment, parts: seq<seq<Change>>, engine: Engine)
    requires ctx == MemosOver(NumericKeys()) && Emission(ctx, parts)
    ensures ValidModel(ctx) && WellFormed(ctx.db) && Run(engine, ctx.db, Flatten(parts)).Some?
    ensures var r, k := Run(engine, ctx.db, Flatten(parts)).value, ColRef("t_note", "_type");
            k in r.columns && r.columns[k].cells != [] && r.columns[k].cells[0] == Value("note")
    ensures MostDerived(ctx, ctx.db.columns, "f_id", "note", Value("1"), "memo")
  {
    hide ValidModel, Deployable, Emission, Run, Flatten, GetsBackfill, KeyIsNew, Nested, SiblingsApart;
    hide MostDerived, KeyProperty;
    MemosAreValid(ctx);
    MemosDeploy(ctx);
    MemoFacts(ctx);
    MemoRow(ctx);
    EmissionCount(ctx, parts);
    MemosHaveNoKeys(ctx, parts[0]);
    Executable(ctx, parts, engine);
    assert Runs(ctx, parts, engine);
    assert Ref(ctx, BARE_NOTE, DiscriminatorProperty(ctx.settings)) == ColRef("t_note", "_type");
    PlanBackfillExactly(ctx, parts, engine, BARE_NOTE, 0);
  }
}
