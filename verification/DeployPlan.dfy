/** What ModelDeployer decides: the changes each class and each property contribute to each
    bucket of the migration plan, as functions of the model and the existing schema. */
module DeployPlan {
  import opened Wrappers
  import opened PropertyTypes
  import opened Database
  import Listing

  /** A class with its properties flattened, struct attributes included. */
  datatype ClassDef = ClassDef(name: string, ancestor: string, key: string, properties: seq<PropertyMeta>)

  /** The sanitised names of tables, columns, relation tables, foreign keys and indices. */
  datatype Naming = Naming(
    table: string -> string,
    column: string -> string,
    relation: (string, string) -> string,
    foreignKey: (string, string) -> string,
    index: (string, string) -> string)

  datatype Settings = Settings(
    useDiscriminator: bool,
    discriminator: string,
    discriminatorLength: Short,
    referentialIntegrity: bool,
    rules: TypeRules,
    changeLogId: string,
    naming: Naming)

  /** order is the iteration order of the class map; place is where the property map of a class has
      the discriminator; depth certifies that ancestors are acyclic; indices lists the existing
      indices as pairs of table and index name. */
  datatype Context = Context(
    settings: Settings,
    classes: map<string, ClassDef>,
    order: seq<string>,
    place: string -> nat,
    depth: map<string, nat>,
    db: Schema,
    indices: seq<(string, string)>)

  ghost predicate WellFounded(ctx: Context) {
    && ctx.depth.Keys == ctx.classes.Keys
    && "" !in ctx.classes
    && Listing.Distinct(ctx.order)
    && (forall n :: n in ctx.order <==> n in ctx.classes)
    && forall n {:trigger Grounded(ctx, n)} | n in ctx.classes :: Grounded(ctx, n)
  }

  predicate Grounded(ctx: Context, n: string)
    requires n in ctx.classes && ctx.depth.Keys == ctx.classes.Keys
  {
    var c := ctx.classes[n];
    c.name == n && (c.ancestor in ctx.classes ==> ctx.depth[c.ancestor] < ctx.depth[n])
  }

  const NO_RULES := TypeRules((p, d, i) => Keep, (p, i) => Keep, p => ColumnType("", None, None), i => ColumnType("", None, None), (p, d, t) => None)

  const NO_NAMES := Naming(s => s, s => s, (s, t) => s, (s, t) => s, (s, t) => s)

  type Deployment = ctx: Context | WellFounded(ctx)
    witness Context(Settings(false, "", 0, false, NO_RULES, "", NO_NAMES), map[], [], n => 0, map[], Schema(map[], map[], []), [])

  function Find(ctx: Deployment, name: string): Option<ClassDef> {
    if name in ctx.classes then Some(ctx.classes[name]) else None
  }

  /** ClassDefRecord.getAncestor; an ancestor that is not in the model counts as none. */
  function Ancestor(ctx: Deployment, c: ClassDef): Option<ClassDef> {
    Find(ctx, c.ancestor)
  }

  function Root(ctx: Deployment, c: ClassDef): ClassDef
    decreases if c.ancestor in ctx.classes then ctx.depth[c.ancestor] + 1 else 0
  {
    match Ancestor(ctx, c)
    case None => c
    case Some(a) =>
      assert Grounded(ctx, c.ancestor);
      Root(ctx, a)
  }

  lemma {:induction false} RootFacts(ctx: Deployment, c: ClassDef)
    ensures var r := Root(ctx, c);
            && IsRoot(ctx, r)
            && (IsRoot(ctx, c) ==> r == c)
            && (!IsRoot(ctx, c) ==> r.name in ctx.classes && ctx.classes[r.name] == r)
    decreases if c.ancestor in ctx.classes then ctx.depth[c.ancestor] + 1 else 0
  {
    if !IsRoot(ctx, c) {
      assert Grounded(ctx, c.ancestor);
      RootFacts(ctx, Ancestor(ctx, c).value);
    }
  }

  predicate IsRoot(ctx: Deployment, c: ClassDef) {
    Ancestor(ctx, c).None?
  }

  predicate IsKey(ctx: Deployment, c: ClassDef, name: string) {
    Root(ctx, c).key == name
  }

  function FindProperty(ps: seq<PropertyMeta>, name: string): Option<PropertyMeta> {
    if ps == [] then None else if ps[0].name == name then Some(ps[0]) else FindProperty(ps[1..], name)
  }

  lemma {:induction false} FindFacts(ps: seq<PropertyMeta>, name: string)
    ensures var r := FindProperty(ps, name);
            && (r.Some? ==> r.value in ps && r.value.name == name)
            && (r.None? ==> forall i | 0 <= i < |ps| :: ps[i].name != name)
  {
    if ps != [] {
      FindFacts(ps[1..], name);
    }
  }

  /** ClassDefRecord.getKeyProperty. */
  function KeyProperty(ctx: Deployment, c: ClassDef): Option<PropertyMeta> {
    FindProperty(Root(ctx, c).properties, Root(ctx, c).key)
  }

  /** deployedPM: a reference is stored as the key of the class it refers to. */
  function Deployed(ctx: Deployment, pm: PropertyMeta): PropertyMeta {
    if pm.kind == REFERENCE && pm.refClass in ctx.classes && KeyProperty(ctx, ctx.classes[pm.refClass]).Some?
    then KeyProperty(ctx, ctx.classes[pm.refClass]).value
    else pm
  }

  function Table(ctx: Deployment, c: ClassDef): string {
    ctx.settings.naming.table(c.name)
  }

  function Saved(ctx: Deployment, column: string): string {
    column + "_" + ctx.settings.changeLogId
  }

  function DiscriminatorProperty(s: Settings): PropertyMeta {
    PropertyMeta(s.discriminator, STRING, Some(s.discriminatorLength), Some(0), 0, false, false, "", "", "", "")
  }

  function Without(ps: seq<PropertyMeta>, name: string): seq<PropertyMeta> {
    if ps == [] then []
    else (if ps[0].name == name then [] else [ps[0]]) + Without(ps[1..], name)
  }

  predicate NotAfter(p: PropertyMeta, q: PropertyMeta) {
    p.orderNumber <= q.orderNumber
  }

  function Inserted(ps: seq<PropertyMeta>, i: nat, d: PropertyMeta): seq<PropertyMeta> {
    var k := if i <= |ps| then i else |ps|;
    ps[..k] + [d] + ps[k..]
  }

  /** The properties in the order of the map; the discriminator joins those of a superclass. */
  function Unsorted(ctx: Deployment, c: ClassDef): seq<PropertyMeta> {
    var d := DiscriminatorProperty(ctx.settings);
    if ctx.settings.useDiscriminator && IsRoot(ctx, c) then Inserted(Without(c.properties, d.name), ctx.place(c.name), d) else c.properties
  }

  /** The property list of a class, sorted. */
  function Properties(ctx: Deployment, c: ClassDef): seq<PropertyMeta> {
    Listing.Sort(Unsorted(ctx, c), NotAfter)
  }

  predicate HasProperty(ps: seq<PropertyMeta>, name: string) {
    exists i :: 0 <= i < |ps| && ps[i].name == name
  }

  /** The name under which the column of a property is looked up. */
  function ColumnName(ctx: Deployment, pm: PropertyMeta): string {
    if ctx.settings.useDiscriminator && pm.name == ctx.settings.discriminator then pm.name else ctx.settings.naming.column(pm.name)
  }

  predicate IsDiscriminator(ctx: Deployment, c: ClassDef, pm: PropertyMeta) {
    ctx.settings.useDiscriminator && IsRoot(ctx, c) && pm.name == ctx.settings.discriminator
  }

  /** What the planner finds for a property: a new table, no column yet, or a column. */
  datatype Situation = Fresh | Absent | Present(info: ColumnInfo, decision: Decision)

  function SituationOf(ctx: Deployment, c: ClassDef, pm: PropertyMeta): Situation {
    var k := ColRef(Table(ctx, c), ColumnName(ctx, pm));
    if Table(ctx, c) !in ctx.db.tables then Fresh
    else if k !in ctx.db.columns then Absent
    else
      var info := ctx.db.columns[k].info;
      Present(info, ctx.settings.rules.decide(pm, Deployed(ctx, pm), info))
  }

  predicate Migrates(ctx: Deployment, c: ClassDef, pm: PropertyMeta) {
    var s := SituationOf(ctx, c, pm);
    s.Present? && s.decision == Migrate
  }

  predicate Widens(ctx: Deployment, c: ClassDef, pm: PropertyMeta) {
    var s := SituationOf(ctx, c, pm);
    s.Present? && s.decision == Widen
  }

  /** A property of a new subclass table that repeats the key is passed over. */
  predicate RepeatsKey(ctx: Deployment, c: ClassDef, pm: PropertyMeta) {
    Table(ctx, c) !in ctx.db.tables && !IsRoot(ctx, c) && IsKey(ctx, c, pm.name)
  }

  /** columnSetup is called: the property gets a column in this plan. */
  predicate GetsColumn(ctx: Deployment, c: ClassDef, pm: PropertyMeta) {
    var s := SituationOf(ctx, c, pm);
    pm.kind != COLLECTION && !RepeatsKey(ctx, c, pm) && (s.Present? ==> s.decision == Migrate)
  }

  function NewColumnOf(ctx: Deployment, pm: PropertyMeta, name: string): NewColumn {
    NewColumn(name, ctx.settings.rules.deployedType(Deployed(ctx, pm)))
  }

  /** A migrated discriminator loses its unprefixed name. */
  function NewName(ctx: Deployment, c: ClassDef, pm: PropertyMeta): string {
    if IsDiscriminator(ctx, c, pm) && !Migrates(ctx, c, pm) then pm.name else ctx.settings.naming.column(pm.name)
  }

  function PropertyColumns(ctx: Deployment, c: ClassDef, pm: PropertyMeta): seq<NewColumn> {
    if GetsColumn(ctx, c, pm) then [NewColumnOf(ctx, pm, NewName(ctx, c, pm))] else []
  }

  /** The column that the first foreign key over a column refers to, if it is one of the table asked for. */
  function FollowedKey(keys: seq<ForeignKey>, t: string, column: string, refTable: string): Option<string> {
    if keys == [] then None
    else if keys[0].table == t && keys[0].column == column then (if keys[0].refTable == refTable then Some(keys[0].refColumn) else None)
    else FollowedKey(keys[1..], t, column, refTable)
  }

  /** What the foreign key over a reference refers to, where it is the class the property refers to. */
  function Followed(ctx: Deployment, c: ClassDef, pm: PropertyMeta): Option<string> {
    var n := ctx.settings.naming;
    FollowedKey(ctx.db.keys, Table(ctx, c), n.column(pm.name), n.table(pm.refClass))
  }

  /** The assignment that fills the new column of a property: a scalar is cast, a reference found by
      the old key of the row it referred to, if a foreign key tells which that was. */
  function MigratedCopies(ctx: Deployment, c: ClassDef, pm: PropertyMeta, info: ColumnInfo): seq<Copy> {
    var n, name := ctx.settings.naming, ColumnName(ctx, pm);
    if pm.kind != REFERENCE then [Copy(name, Saved(ctx, name), ctx.settings.rules.cast(pm, Deployed(ctx, pm), info.dataType), None)]
    else
      match Followed(ctx, c, pm)
      case None => []
      case Some(pk) =>
        [Copy(n.column(pm.name), Saved(ctx, n.column(pm.name)), None,
              Some(Lookup(n.table(pm.refClass), n.column(Deployed(ctx, pm).name), Saved(ctx, pk))))]
  }

  function PropertyCopies(ctx: Deployment, c: ClassDef, pm: PropertyMeta): seq<Copy> {
    if Migrates(ctx, c, pm) && pm.kind != COLLECTION then MigratedCopies(ctx, c, pm, SituationOf(ctx, c, pm).info) else []
  }

  /** addFK and its two uses in columnSetup. */
  function ForeignKeys(ctx: Deployment, c: ClassDef, pm: PropertyMeta): seq<Change> {
    var n := ctx.settings.naming;
    var target :=
      if pm.kind == REFERENCE then (if ctx.settings.referentialIntegrity then Find(ctx, pm.refClass) else None)
      else if IsKey(ctx, c, pm.name) && !HasProperty(c.properties, pm.name) then Ancestor(ctx, c)
      else None;
    if target.Some? && KeyProperty(ctx, target.value).Some? then
      [AddForeignKey(n.foreignKey(c.name, pm.name), Table(ctx, c), n.column(pm.name),
                     Table(ctx, target.value), n.column(KeyProperty(ctx, target.value).value.name))]
    else []
  }

  /** The buckets, in the order in which they are emitted; DropIndices is filled and never emitted. */
  datatype Bucket =
    | DropFKs | CleanPK | DropPK | RenameColumns | ModifyTypes | CreateTables | AddedColumns | DataMigrate
    | AddIndices | CreateFKs | Final | CreatePK
    | DropRelPK | RenameRelColumns | ModifyRelTypes | CreateRelTables | AddRelColumns | RelDataMigrate | CreateRelPK | CreateRelFKs
    | DropIndices

  function IsBlank(s: string): bool {
    forall i | 0 <= i < |s| :: s[i] <= ' '
  }

  /** A collection stored in a relation table of its own. */
  predicate OwnsRelation(ctx: Deployment, c: ClassDef, pm: PropertyMeta) {
    var s := SituationOf(ctx, c, pm);
    pm.kind == COLLECTION && IsBlank(pm.backRef) && IsBlank(pm.backColl) && (s.Present? ==> s.decision == Migrate)
    && Find(ctx, pm.itemsClass).Some?
  }

  function Relation(ctx: Deployment, c: ClassDef, pm: PropertyMeta): string {
    ctx.settings.naming.relation(c.name, pm.name)
  }

  /** What happens to one of the two columns of a relation table. */
  function SideDecision(ctx: Deployment, relation: string, side: string, c: ClassDef): Option<Decision> {
    var k := ColRef(relation, side);
    if k in ctx.db.columns && KeyProperty(ctx, c).Some? then Some(ctx.settings.rules.decideRelation(KeyProperty(ctx, c).value, ctx.db.columns[k].info)) else None
  }

  function SideColumn(ctx: Deployment, side: string, c: ClassDef): seq<NewColumn> {
    if KeyProperty(ctx, c).Some? then [NewColumn(side, ctx.settings.rules.deployedType(KeyProperty(ctx, c).value))] else []
  }

  function SideKey(ctx: Deployment, relation: string, name: string, side: string, c: ClassDef): seq<Change> {
    if KeyProperty(ctx, c).Some? then
      [AddForeignKey(name, relation, side, Table(ctx, c), ctx.settings.naming.column(KeyProperty(ctx, c).value.name))]
    else []
  }

  predicate Resets(ctx: Deployment, relation: string, c: ClassDef, other: ClassDef) {
    SideDecision(ctx, relation, "master", c) == Some(Migrate) || SideDecision(ctx, relation, "detail", other) == Some(Migrate)
  }

  function SideChanges(ctx: Deployment, relation: string, side: string, c: ClassDef, b: Bucket): seq<Change> {
    var d := SideDecision(ctx, relation, side, c);
    if b == RenameRelColumns && d == Some(Migrate) then [RenameColumn(relation, side, Saved(ctx, side))]
    else if b == ModifyRelTypes && d == Some(Widen) then
      [ModifyDataType(relation, side, ctx.settings.rules.deployedType(KeyProperty(ctx, c).value))]
    else []
  }

  function SideAdds(ctx: Deployment, relation: string, side: string, c: ClassDef): seq<NewColumn> {
    if SideDecision(ctx, relation, side, c) == Some(Migrate) then SideColumn(ctx, side, c) else []
  }

  function AddSides(ctx: Deployment, c: ClassDef, other: ClassDef, r: string): seq<Change> {
    var cols := SideAdds(ctx, r, "master", c) + SideAdds(ctx, r, "detail", other);
    if cols == [] then [] else [AddColumns(r, cols)]
  }

  function DropRelationKey(ctx: Deployment, c: ClassDef, other: ClassDef, r: string): seq<Change> {
    if Resets(ctx, r, c, other) then [DropPrimaryKey(r)] else []
  }

  function CreateRelationKey(ctx: Deployment, c: ClassDef, other: ClassDef, r: string): seq<Change> {
    if r !in ctx.db.tables || Resets(ctx, r, c, other) then [AddPrimaryKey(r, ["master", "detail"])] else []
  }

  function LinkSides(ctx: Deployment, c: ClassDef, other: ClassDef, r: string, masterKey: string, detailKey: string): seq<Change> {
    SideKey(ctx, r, masterKey, "master", c) + SideKey(ctx, r, detailKey, "detail", other)
  }

  function LinkRelation(ctx: Deployment, c: ClassDef, other: ClassDef, r: string): seq<Change> {
    var fk := ctx.settings.naming.foreignKey;
    if r in ctx.db.tables then
      if Resets(ctx, r, c, other) then LinkSides(ctx, c, other, r, "fk_" + r + "_0", "fk_" + r + "_1") else []
    else if ctx.settings.referentialIntegrity then LinkSides(ctx, c, other, r, fk(r, "master"), fk(r, "detail"))
    else []
  }

  /** establishRelationship: what relation table r between c and other adds to a bucket. */
  function RelationChanges(ctx: Deployment, c: ClassDef, other: ClassDef, r: string, b: Bucket): seq<Change> {
    if b == CreateRelFKs then LinkRelation(ctx, c, other, r)
    else if b == CreateRelPK then CreateRelationKey(ctx, c, other, r)
    else if r in ctx.db.tables then
      match b
      case RenameRelColumns | ModifyRelTypes => SideChanges(ctx, r, "master", c, b) + SideChanges(ctx, r, "detail", other, b)
      case AddRelColumns => AddSides(ctx, c, other, r)
      case DropRelPK => DropRelationKey(ctx, c, other, r)
      case _ => []
    else if b == CreateRelTables then [CreateTable(r, SideColumn(ctx, "master", c) + SideColumn(ctx, "detail", other))]
    else []
  }

  // The subclasses of a class, level by level.

  predicate IsChild(ctx: Deployment, parent: string, n: string) {
    n in ctx.classes && ctx.classes[n].ancestor == parent
  }

  function ChildrenAmong(ctx: Deployment, parent: string, names: seq<string>): seq<string> {
    if names == [] then []
    else ChildrenAmong(ctx, parent, names[..|names| - 1]) + if IsChild(ctx, parent, names[|names| - 1]) then [names[|names| - 1]] else []
  }

  /** The descendants of a class that are exactly l + 1 steps below it. */
  function Level(ctx: Deployment, parent: string, l: nat): seq<string>
    decreases l, 0, 0
  {
    var children := ChildrenAmong(ctx, parent, ctx.order);
    if l == 0 then children else LevelOver(ctx, children, l - 1)
  }

  function LevelOver(ctx: Deployment, names: seq<string>, l: nat): seq<string>
    decreases l, 1, |names|
  {
    if names == [] then [] else LevelOver(ctx, names[..|names| - 1], l) + Level(ctx, names[|names| - 1], l)
  }

  function Deeper(ctx: Deployment, parent: string): set<string> {
    set n | n in ctx.classes && parent in ctx.classes && ctx.depth[n] > ctx.depth[parent]
  }

  lemma ChildrenAreDeeper(ctx: Deployment, parent: string, names: seq<string>)
    requires parent in ctx.classes
    ensures forall n | n in ChildrenAmong(ctx, parent, names) ::
              IsChild(ctx, parent, n) && n in names && n in ctx.classes && Deeper(ctx, n) < Deeper(ctx, parent)
  {
    if names != [] {
      ChildrenAreDeeper(ctx, parent, names[..|names| - 1]);
      var n := names[|names| - 1];
      if IsChild(ctx, parent, n) {
        assert Grounded(ctx, n);
        assert n in Deeper(ctx, parent) && n !in Deeper(ctx, n);
      }
    }
  }

  /** The number of levels below a class. */
  function Height(ctx: Deployment, parent: string): nat
    requires parent in ctx.classes
    decreases Deeper(ctx, parent), 0
  {
    ChildrenAreDeeper(ctx, parent, ctx.order);
    HeightOver(ctx, parent, ChildrenAmong(ctx, parent, ctx.order))
  }

  function HeightOver(ctx: Deployment, parent: string, names: seq<string>): nat
    requires parent in ctx.classes
    requires forall n | n in names :: n in ctx.classes && Deeper(ctx, n) < Deeper(ctx, parent)
    decreases Deeper(ctx, parent), 0, |names|
  {
    if names == [] then 0
    else
      var h, k := HeightOver(ctx, parent, names[..|names| - 1]), Height(ctx, names[|names| - 1]) + 1;
      if h < k then k else h
  }

  function UpdatesOf(ctx: Deployment, names: seq<string>): (r: seq<Update>)
    ensures |r| == |names|
    ensures forall i | 0 <= i < |names| :: r[i] == Update(names[i], Some(ctx.settings.naming.table(names[i])))
  {
    if names == [] then []
    else UpdatesOf(ctx, names[..|names| - 1]) + [Update(names[|names| - 1], Some(ctx.settings.naming.table(names[|names| - 1])))]
  }

  /** The updates for levels l - 1, ..., 0, deepest level first. */
  function ScriptFrom(ctx: Deployment, root: string, l: nat): seq<Update> {
    if l == 0 then [] else UpdatesOf(ctx, Level(ctx, root, l - 1)) + ScriptFrom(ctx, root, l - 1)
  }

  function Script(ctx: Deployment, root: string): seq<Update> {
    ScriptFrom(ctx, root, if root in ctx.classes then Height(ctx, root) else 0) + [Update(root, None)]
  }

  function BackfillOf(ctx: Deployment, c: ClassDef, pm: PropertyMeta): Change {
    Backfill(Table(ctx, c), ColumnName(ctx, pm), ctx.settings.naming.column(c.key), Script(ctx, c.name))
  }

  function RelationPart(ctx: Deployment, c: ClassDef, pm: PropertyMeta, b: Bucket): seq<Change> {
    if OwnsRelation(ctx, c, pm) then RelationChanges(ctx, c, Find(ctx, pm.itemsClass).value, Relation(ctx, c, pm), b) else []
  }

  // What a migrated key adds: its old type is restated, the primary key dropped and made anew.

  predicate MigratesKey(ctx: Deployment, c: ClassDef, pm: PropertyMeta) {
    Migrates(ctx, c, pm) && IsKey(ctx, c, pm.name)
  }

  function CleanKey(ctx: Deployment, c: ClassDef, pm: PropertyMeta): seq<Change> {
    if MigratesKey(ctx, c, pm) then
      [ModifyDataType(Table(ctx, c), ColumnName(ctx, pm), ctx.settings.rules.currentType(SituationOf(ctx, c, pm).info))]
    else []
  }

  function DropKey(ctx: Deployment, c: ClassDef, pm: PropertyMeta): seq<Change> {
    if MigratesKey(ctx, c, pm) then [DropPrimaryKey(Table(ctx, c))] else []
  }

  function CreateKey(ctx: Deployment, c: ClassDef, pm: PropertyMeta): seq<Change> {
    if MigratesKey(ctx, c, pm) then [AddPrimaryKey(Table(ctx, c), [ctx.settings.naming.column(pm.name)])] else []
  }

  function RenameOld(ctx: Deployment, c: ClassDef, pm: PropertyMeta): seq<Change> {
    if Migrates(ctx, c, pm) then [RenameColumn(Table(ctx, c), ColumnName(ctx, pm), Saved(ctx, ColumnName(ctx, pm)))] else []
  }

  function Enlarge(ctx: Deployment, c: ClassDef, pm: PropertyMeta): seq<Change> {
    if Widens(ctx, c, pm) then
      [ModifyDataType(Table(ctx, c), ColumnName(ctx, pm), ctx.settings.rules.deployedType(Deployed(ctx, pm)))]
    else []
  }

  predicate GetsBackfill(ctx: Deployment, c: ClassDef, pm: PropertyMeta) {
    SituationOf(ctx, c, pm).Absent? && pm.kind != COLLECTION && IsDiscriminator(ctx, c, pm)
  }

  function FillNew(ctx: Deployment, c: ClassDef, pm: PropertyMeta): seq<Change> {
    if GetsBackfill(ctx, c, pm) then [BackfillOf(ctx, c, pm)] else []
  }

  predicate GetsIndex(ctx: Deployment, c: ClassDef, pm: PropertyMeta) {
    GetsColumn(ctx, c, pm) && !SituationOf(ctx, c, pm).Absent? && pm.indexed && !pm.unique
  }

  function IndexNew(ctx: Deployment, c: ClassDef, pm: PropertyMeta): seq<Change> {
    if GetsIndex(ctx, c, pm) then
      [CreateIndex(Table(ctx, c), ctx.settings.naming.index(c.name, pm.name), ctx.settings.naming.column(pm.name))]
    else []
  }

  function LinkNew(ctx: Deployment, c: ClassDef, pm: PropertyMeta): seq<Change> {
    if GetsColumn(ctx, c, pm) then ForeignKeys(ctx, c, pm) else []
  }

  /** What one property adds to a bucket, the merged column and data changes aside. */
  function PropertyChanges(ctx: Deployment, c: ClassDef, pm: PropertyMeta, b: Bucket): seq<Change> {
    match b
    case CleanPK => CleanKey(ctx, c, pm)
    case DropPK => DropKey(ctx, c, pm)
    case CreatePK => CreateKey(ctx, c, pm)
    case RenameColumns => RenameOld(ctx, c, pm)
    case ModifyTypes => Enlarge(ctx, c, pm)
    case DataMigrate => FillNew(ctx, c, pm)
    case AddIndices => IndexNew(ctx, c, pm)
    case CreateFKs => LinkNew(ctx, c, pm)
    case _ => RelationPart(ctx, c, pm, b)
  }

  /** The key column of a subclass table that does not have it yet. */
  predicate GetsKeyColumn(ctx: Deployment, c: ClassDef) {
    && !IsRoot(ctx, c)
    && KeyProperty(ctx, c).Some?
    && ColRef(Table(ctx, c), ctx.settings.naming.column(KeyProperty(ctx, c).value.name)) !in ctx.db.columns
  }

  function KeyColumns(ctx: Deployment, c: ClassDef): seq<NewColumn> {
    if GetsKeyColumn(ctx, c) then
      var pm := KeyProperty(ctx, c).value;
      [NewColumn(ctx.settings.naming.column(pm.name), ctx.settings.rules.deployedType(pm))]
    else []
  }

  function KeyForeignKeys(ctx: Deployment, c: ClassDef): seq<Change> {
    if GetsKeyColumn(ctx, c) then ForeignKeys(ctx, c, KeyProperty(ctx, c).value) else []
  }

  function AllColumns(ctx: Deployment, c: ClassDef, ps: seq<PropertyMeta>): seq<NewColumn> {
    if ps == [] then [] else AllColumns(ctx, c, ps[..|ps| - 1]) + PropertyColumns(ctx, c, ps[|ps| - 1])
  }

  function AllCopies(ctx: Deployment, c: ClassDef, ps: seq<PropertyMeta>): seq<Copy> {
    if ps == [] then [] else AllCopies(ctx, c, ps[..|ps| - 1]) + PropertyCopies(ctx, c, ps[|ps| - 1])
  }

  function AllPropertyChanges(ctx: Deployment, c: ClassDef, ps: seq<PropertyMeta>, b: Bucket): seq<Change> {
    if ps == [] then [] else AllPropertyChanges(ctx, c, ps[..|ps| - 1], b) + PropertyChanges(ctx, c, ps[|ps| - 1], b)
  }

  function OneIf(some: bool, ch: Change): seq<Change> {
    if some then [ch] else []
  }

  /** What one class adds to a bucket. */
  function ClassChanges(ctx: Deployment, c: ClassDef, ps: seq<PropertyMeta>, b: Bucket): seq<Change> {
    var t := Table(ctx, c);
    var present := t in ctx.db.tables;
    match b
    case CreateTables => OneIf(!present, CreateTable(t, KeyColumns(ctx, c) + AllColumns(ctx, c, ps)))
    case AddedColumns =>
      var cols := AllColumns(ctx, c, ps) + KeyColumns(ctx, c);
      OneIf(present && cols != [], AddColumns(t, cols))
    case DataMigrate =>
      var copies := AllCopies(ctx, c, ps);
      AllPropertyChanges(ctx, c, ps, b) + OneIf(present && copies != [], CopyData(t, copies))
    case CreateFKs =>
      if present then AllPropertyChanges(ctx, c, ps, b) + KeyForeignKeys(ctx, c)
      else KeyForeignKeys(ctx, c) + AllPropertyChanges(ctx, c, ps, b)
    case _ => AllPropertyChanges(ctx, c, ps, b)
  }

  /** The contents of a bucket after the classes named in names. */
  function BucketChanges(ctx: Deployment, names: seq<string>, b: Bucket): seq<Change>
    requires forall n | n in names :: n in ctx.classes
  {
    if names == [] then []
    else
      var c := ctx.classes[names[|names| - 1]];
      BucketChanges(ctx, names[..|names| - 1], b) + ClassChanges(ctx, c, Properties(ctx, c), b)
  }

  // The foreign keys to be dropped.

  predicate DropsExportedKeys(ctx: Deployment, c: ClassDef, pm: PropertyMeta) {
    IsKey(ctx, c, pm.name) && (Widens(ctx, c, pm) || (Migrates(ctx, c, pm) && pm.kind != COLLECTION))
  }

  predicate DropsImportedKeys(ctx: Deployment, c: ClassDef, other: ClassDef, r: string) {
    r in ctx.db.tables && Resets(ctx, r, c, other)
  }

  /** The names of the existing foreign keys that refer to a table. */
  function ExportedKeys(ctx: Deployment, t: string): set<string> {
    set i | 0 <= i < |ctx.db.keys| && ctx.db.keys[i].refTable == t :: ctx.db.keys[i].name
  }

  /** The names of the existing foreign keys of a table. */
  function ImportedKeys(ctx: Deployment, t: string): set<string> {
    set i | 0 <= i < |ctx.db.keys| && ctx.db.keys[i].table == t :: ctx.db.keys[i].name
  }

  function RelationDrops(ctx: Deployment, c: ClassDef, other: ClassDef, r: string): set<string> {
    if DropsImportedKeys(ctx, c, other, r) then ImportedKeys(ctx, r) else {}
  }

  function PropertyDrops(ctx: Deployment, c: ClassDef, pm: PropertyMeta): set<string> {
    (if DropsExportedKeys(ctx, c, pm) then ExportedKeys(ctx, Table(ctx, c)) else {}) +
    (if OwnsRelation(ctx, c, pm) then RelationDrops(ctx, c, Find(ctx, pm.itemsClass).value, Relation(ctx, c, pm)) else {})
  }

  function ClassDrops(ctx: Deployment, c: ClassDef, ps: seq<PropertyMeta>): set<string> {
    if ps == [] then {} else ClassDrops(ctx, c, ps[..|ps| - 1]) + PropertyDrops(ctx, c, ps[|ps| - 1])
  }

  /** The names of all foreign keys the plan drops. */
  function AllDrops(ctx: Deployment, names: seq<string>): set<string>
    requires forall n | n in names :: n in ctx.classes
  {
    if names == [] then {}
    else
      var c := ctx.classes[names[|names| - 1]];
      AllDrops(ctx, names[..|names| - 1]) + ClassDrops(ctx, c, Properties(ctx, c))
  }

  // What the planner demands of the model.

  ghost predicate DistinctProperties(ps: seq<PropertyMeta>) {
    forall i, j | 0 <= i < j < |ps| :: ps[i].name != ps[j].name
  }

  /** Every class has its key property, references resolve where foreign keys are made,
      and the properties of a class form a map. */
  ghost predicate Resolvable(ctx: Deployment) {
    forall n {:trigger ResolvableClass(ctx, ctx.classes[n])} | n in ctx.classes :: ResolvableClass(ctx, ctx.classes[n])
  }

  ghost predicate ResolvableClass(ctx: Deployment, c: ClassDef) {
    && KeyProperty(ctx, c).Some?
    && DistinctProperties(c.properties)
    && ReferencesResolve(ctx, c.properties)
  }

  ghost predicate ReferencesResolve(ctx: Deployment, ps: seq<PropertyMeta>) {
    ctx.settings.referentialIntegrity ==> forall i | 0 <= i < |ps| :: ps[i].kind == REFERENCE ==> ps[i].refClass in ctx.classes
  }

  /** The property names of the model, the discriminator included. */
  function PropertyNames(ctx: Deployment): set<string> {
    (set n, i | n in ctx.classes && 0 <= i < |ctx.classes[n].properties| :: ctx.classes[n].properties[i].name) + {ctx.settings.discriminator}
  }

  /** The sanitised names of the model's classes and properties do not collide. */
  ghost predicate NamesApart(ctx: Deployment) {
    var n, names := ctx.settings.naming, PropertyNames(ctx);
    && (forall a, b {:trigger n.table(a), n.table(b)} | a in ctx.classes && b in ctx.classes && n.table(a) == n.table(b) :: a == b)
    && (forall a, b {:trigger n.column(a), n.column(b)} | a in names && b in names && n.column(a) == n.column(b) :: a == b)
    && (forall a, b, c, d {:trigger n.relation(a, b), n.relation(c, d)} |
          a in ctx.classes && b in names && c in ctx.classes && d in names && n.relation(a, b) == n.relation(c, d) :: a == c && b == d)
    && (forall a, b, c {:trigger n.relation(a, b), n.table(c)} | a in ctx.classes && b in names && c in ctx.classes :: n.relation(a, b) != n.table(c))
  }

  lemma NamedInModel(ctx: Deployment, n: string, p: PropertyMeta)
    requires n in ctx.classes && p in ctx.classes[n].properties
    ensures p.name in PropertyNames(ctx)
  {
    var i :| 0 <= i < |ctx.classes[n].properties| && ctx.classes[n].properties[i] == p;
  }

  // The plan as it is emitted.

  /** The order of emission; DropIndices is not in it. */
  function Emitted(): (r: seq<Bucket>)
    ensures |r| == 20 && forall i, j | 0 <= i < j < 20 :: r[i] != r[j]
  {
    [DropFKs, CleanPK, DropPK, RenameColumns, ModifyTypes, CreateTables, AddedColumns, DataMigrate,
     AddIndices, CreateFKs, Final, CreatePK,
     DropRelPK, RenameRelColumns, ModifyRelTypes, CreateRelTables, AddRelColumns, RelDataMigrate, CreateRelPK, CreateRelFKs]
  }

  function Flatten(parts: seq<seq<Change>>): seq<Change> {
    if parts == [] then [] else Flatten(parts[..|parts| - 1]) + parts[|parts| - 1]
  }

  predicate DropsExisting(ctx: Deployment, ch: Change) {
    ch.DropForeignKey? && exists i :: 0 <= i < |ctx.db.keys| && ctx.db.keys[i].name == ch.name && ctx.db.keys[i].table == ch.table
  }

  /** The dropped keys: existing ones, each name once, and exactly the names that have to go. */
  ghost predicate DropList(ctx: Deployment, s: seq<Change>) {
    && (forall i | 0 <= i < |s| :: DropsExisting(ctx, s[i]))
    && (forall i, j | 0 <= i < j < |s| :: s[i].name != s[j].name)
    && (forall n :: n in AllDrops(ctx, ctx.order) <==> exists i :: 0 <= i < |s| && s[i].DropForeignKey? && s[i].name == n)
  }

  /** The three buckets kept in maps by relation table, whose order of emission is arbitrary. */
  predicate ByRelation(b: Bucket) {
    b in {DropRelPK, CreateRelTables, CreateRelPK}
  }

  /** parts[i] is what the i-th emitted bucket holds, in some order where a map gives the order. */
  ghost predicate Emission(ctx: Deployment, parts: seq<seq<Change>>) {
    && |parts| == 20
    && DropList(ctx, parts[0])
    && forall i {:trigger parts[i]} | 1 <= i < 20 ::
         if ByRelation(Emitted()[i]) then multiset(parts[i]) == multiset(BucketChanges(ctx, ctx.order, Emitted()[i]))
         else parts[i] == BucketChanges(ctx, ctx.order, Emitted()[i])
  }
}
