/** The schema a plan leaves behind, told by the model: which tables are there, which type the
    column of each property has, and that the two columns of a relation table have the types
    of the keys they hold. */
module PlanSchema {
  import opened Wrappers
  import opened PropertyTypes
  import opened Database
  import opened Batches
  import opened DeployPlan
  import opened ModelDeploying
  import opened PlanShape
  import opened PlanColumns
  import opened PlanRuns
  import opened PlanFits
  import opened PlanExecutes
  import opened PlanData
  import opened PlanFixpoint
  import Listing

  /** A collection without a counterpart on the side of its items, whose class is in the model. */
  ghost predicate ManyToMany(ctx: Deployment, c: ClassDef, pm: PropertyMeta, other: ClassDef) {
    && IsProperty(ctx, c, pm) && pm.kind == COLLECTION
    && (forall x | x in pm.backRef :: x <= ' ') && (forall x | x in pm.backColl :: x <= ' ')
    && pm.itemsClass in ctx.classes && other == ctx.classes[pm.itemsClass]
  }

  /** The property that the class on top of the hierarchy has as its key. */
  ghost predicate IsKeyOf(ctx: Deployment, c: ClassDef, key: PropertyMeta) {
    key in Root(ctx, c).properties && key.name == Root(ctx, c).key
  }

  /** A reference is stored as the key of the class it refers to. */
  ghost predicate IsStoredAs(ctx: Deployment, pm: PropertyMeta, q: PropertyMeta) {
    if pm.kind == REFERENCE && pm.refClass in ctx.classes then IsKeyOf(ctx, ctx.classes[pm.refClass], q) else q == pm
  }

  lemma KeyIsKeyProperty(ctx: Deployment, c: ClassDef, key: PropertyMeta)
    requires ValidModel(ctx) && IsClass(ctx, c) && IsKeyOf(ctx, c, key)
    ensures KeyProperty(ctx, c) == Some(key)
  {
    hide Properties, PropertyNames, SuffixIsNew, WellFormed, NamesApart, KeyNamesApart, OutsidersApart;
    ClassFacts(ctx, c);
    var r := Root(ctx, c);
    FindFacts(r.properties, r.key);
    assert ResolvableClass(ctx, ctx.classes[r.name]);
    var found := FindProperty(r.properties, r.key).value;
    var i :| 0 <= i < |r.properties| && r.properties[i] == key;
    var j :| 0 <= j < |r.properties| && r.properties[j] == found;
  }

  lemma StoredIsDeployed(ctx: Deployment, pm: PropertyMeta, q: PropertyMeta)
    requires ValidModel(ctx) && IsStoredAs(ctx, pm, q)
    ensures Deployed(ctx, pm) == q
  {
    hide ValidModel, KeyProperty, Root;
    if pm.kind == REFERENCE && pm.refClass in ctx.classes {
      assert Grounded(ctx, pm.refClass);
      KeyIsKeyProperty(ctx, ctx.classes[pm.refClass], q);
    }
  }

  // Tables.

  lemma BlankMeans(s: string)
    ensures IsBlank(s) <==> forall x | x in s :: x <= ' '
  {
    if forall x | x in s :: x <= ' ' {
      forall i | 0 <= i < |s| ensures s[i] <= ' ' {
        assert s[i] in s;
      }
    }
  }

  lemma OwnsExactly(ctx: Deployment, defaultLength: int, c: ClassDef, pm: PropertyMeta)
    requires ValidModel(ctx) && ctx.settings.rules == StandardRules(defaultLength) && IsProperty(ctx, c, pm)
    ensures OwnsRelation(ctx, c, pm) <==> exists other :: ManyToMany(ctx, c, pm, other)
    ensures OwnsRelation(ctx, c, pm) ==> ManyToMany(ctx, c, pm, Find(ctx, pm.itemsClass).value)
  {
    hide ValidModel, Properties, Deployed;
    BlankMeans(pm.backRef);
    BlankMeans(pm.backColl);
    hide IsBlank;
    if pm.kind == COLLECTION {
      CollectionMigrates(ctx, defaultLength, c, pm);
      if pm.itemsClass in ctx.classes {
        assert ManyToMany(ctx, c, pm, ctx.classes[pm.itemsClass]) <==>
            (forall x | x in pm.backRef :: x <= ' ') && (forall x | x in pm.backColl :: x <= ' ');
      }
    }
  }

  /** The relation tables of the model. */
  lemma RelatesExactly(ctx: Deployment, defaultLength: int, c: ClassDef, other: ClassDef, r: string)
    requires ValidModel(ctx) && ctx.settings.rules == StandardRules(defaultLength)
    ensures Relates(ctx, c, other, r) <==> exists pm :: ManyToMany(ctx, c, pm, other) && r == ctx.settings.naming.relation(c.name, pm.name)
  {
    hide ValidModel, SituationOf, IsBlank, Properties;
    if Relates(ctx, c, other, r) {
      var pm :| IsProperty(ctx, c, pm) && OwnsRelation(ctx, c, pm) && r == Relation(ctx, c, pm) && other == Find(ctx, pm.itemsClass).value;
      OwnsExactly(ctx, defaultLength, c, pm);
    }
    if pm :| ManyToMany(ctx, c, pm, other) && r == ctx.settings.naming.relation(c.name, pm.name) {
      OwnsExactly(ctx, defaultLength, c, pm);
    }
  }

  /** After a plan that runs through: the old tables, those of the classes, and those of the collections
      that have no counterpart. */
  lemma TablesAfter(ctx: Deployment, parts: seq<seq<Change>>, engine: Engine, defaultLength: int, t: string)
    requires Runs(ctx, parts, engine) && ctx.settings.rules == StandardRules(defaultLength)
    ensures var n := ctx.settings.naming;
            t in Run(engine, ctx.db, Flatten(parts)).value.tables <==>
              || t in ctx.db.tables
              || (exists c :: IsClass(ctx, c) && t == n.table(c.name))
              || (exists c, pm, other :: ManyToMany(ctx, c, pm, other) && t == n.relation(c.name, pm.name))
  {
    hide ValidModel, Emission, Run, Flatten, ManyToMany, HasColumn, Relates;
    PartCount(ctx, parts, engine);
    assert parts[..20] == parts;
    StageOf(ctx, parts, engine, 20);
    if IsRelationTable(ctx, t) {
      var c, other :| Relates(ctx, c, other, t);
      RelatesExactly(ctx, defaultLength, c, other, t);
    }
    if c, pm, other :| ManyToMany(ctx, c, pm, other) && t == ctx.settings.naming.relation(c.name, pm.name) {
      RelatesExactly(ctx, defaultLength, c, other, t);
    }
    if c :| IsClass(ctx, c) && t == ctx.settings.naming.table(c.name) {
      assert t == Table(ctx, c);
    }
  }

  // Order.

  /** The properties of a class as the planner takes them: in the order of their numbers, those it
      declares, and for a superclass the discriminator in place of a property of that name. */
  lemma PropertiesExactly(ctx: Deployment, c: ClassDef)
    requires ValidModel(ctx) && IsClass(ctx, c)
    ensures var ps, s := Properties(ctx, c), ctx.settings;
            && (forall i, j | 0 <= i < j < |ps| :: ps[i].name != ps[j].name && ps[i].orderNumber <= ps[j].orderNumber)
            && (forall p :: p in ps <==>
                  if s.useDiscriminator && c.ancestor !in ctx.classes && p.name == s.discriminator
                  then p == PropertyMeta(s.discriminator, STRING, Some(s.discriminatorLength), Some(0), 0, false, false, "", "", "", "")
                  else p in c.properties)
  {
    hide WellFormed, KeysResolve, NamesApart, KeyNamesApart, OutsidersApart, SuffixIsNew, KeyDeclaredOnce, PropertyNames;
    assert ResolvableClass(ctx, ctx.classes[c.name]);
    PropertiesFacts(ctx, c);
    var unsorted := Unsorted(ctx, c);
    hide Unsorted;
    Listing.SortSorts(unsorted, NotAfter);
    var ps := Properties(ctx, c);
    forall i, j | 0 <= i < j < |ps| ensures ps[i].orderNumber <= ps[j].orderNumber {
      assert NotAfter(ps[i], ps[j]);
    }
  }

  /** The columns that the properties get are in that order. */
  lemma {:induction false} ColumnsInOrder(ctx: Deployment, c: ClassDef, ps: seq<PropertyMeta>) returns (qs: seq<PropertyMeta>)
    requires forall i, j | 0 <= i < j < |ps| :: ps[i].orderNumber <= ps[j].orderNumber
    ensures |qs| == |AllColumns(ctx, c, ps)| && forall i | 0 <= i < |qs| :: qs[i] in ps && AllColumns(ctx, c, ps)[i] == NewColumnOf(ctx, qs[i], NewName(ctx, c, qs[i]))
    ensures forall i, j | 0 <= i < j < |qs| :: qs[i].orderNumber <= qs[j].orderNumber
  {
    hide GetsColumn, NewName, NewColumnOf;
    if ps == [] {
      qs := [];
    } else {
      var front, last := ps[..|ps| - 1], ps[|ps| - 1];
      assert ps == front + [last];
      qs := ColumnsInOrder(ctx, c, front);
      forall i | 0 <= i < |qs| ensures qs[i].orderNumber <= last.orderNumber {
        var k :| 0 <= k < |front| && front[k] == qs[i];
        assert ps[k] == qs[i];
      }
      if GetsColumn(ctx, c, last) {
        qs := qs + [last];
      }
    }
  }

  /** A new subclass table has one key column, also where the subclass declares the key again, which a valid
      model does not: the declared property is passed over. */
  lemma KeyColumnOnce(ctx: Deployment, c: ClassDef)
    requires WellFormed(ctx.db) && Resolvable(ctx) && NamesApart(ctx)
    requires IsClass(ctx, c) && !IsRoot(ctx, c) && Table(ctx, c) !in ctx.db.tables
    ensures var cs, k := ClassColumns(ctx, c), ctx.settings.naming.column(Root(ctx, c).key);
            cs != [] && cs[0].name == k && forall i | 1 <= i < |cs| :: cs[i].name != k
  {
    hide WellFormed, PropertyNames, Deployed;
    assert ResolvableClass(ctx, ctx.classes[c.name]);
    RootFacts(ctx, c);
    var r := Root(ctx, c);
    FindFacts(r.properties, r.key);
    NamedInModel(ctx, r.name, KeyProperty(ctx, c).value);
    PropertiesNamed(ctx, c);
    var t, k, all := Table(ctx, c), ctx.settings.naming.column(r.key), AllColumns(ctx, c, Properties(ctx, c));
    assert ColRef(t, k) !in ctx.db.columns by { NotThere(ctx.db, t, k); }
    forall col | col in all ensures col.name != k {
      var pm := FromColumns(ctx, c, Properties(ctx, c), col);
      assert pm.name != r.key;
    }
    assert ClassColumns(ctx, c)[0].name == k;
    forall i | 1 <= i < |ClassColumns(ctx, c)| ensures ClassColumns(ctx, c)[i].name != k {
      assert ClassColumns(ctx, c)[i] == all[i - 1] && all[i - 1] in all;
    }
  }

  lemma NotThere(db: Schema, t: string, name: string)
    requires WellFormed(db) && t !in db.tables
    ensures ColRef(t, name) !in db.columns
  {
    assert ColRef(t, name) in db.columns ==> ColRef(t, name).table in db.tables;
  }

  // Columns of properties.

  /** The column of a property that is no collection: as it was where the comparison keeps it,
      otherwise of the type the property is stored with. */
  lemma PropertyColumnAfter(ctx: Deployment, parts: seq<seq<Change>>, engine: Engine, defaultLength: int, c: ClassDef, pm: PropertyMeta, q: PropertyMeta)
    requires Runs(ctx, parts, engine) && ctx.settings.rules == StandardRules(defaultLength)
    requires IsProperty(ctx, c, pm) && pm.kind != COLLECTION && IsStoredAs(ctx, pm, q)
    ensures var r, s := Run(engine, ctx.db, Flatten(parts)).value, ctx.settings;
            var k := ColRef(s.naming.table(c.name), if s.useDiscriminator && pm.name == s.discriminator then pm.name else s.naming.column(pm.name));
            && k in r.columns
            && r.columns[k].info == if k in ctx.db.columns && Decide(pm, q, ctx.db.columns[k].info, defaultLength) == Keep then ctx.db.columns[k].info
                                    else engine.realise(DeployedType(q, defaultLength))
  {
    hide ValidModel, Emission, Properties, Run, Flatten, Decide, KeyProperty, DeployedType, IsStoredAs, Deployed;
    PartCount(ctx, parts, engine);
    assert parts[..20] == parts;
    StoredIsDeployed(ctx, pm, q);
    SubclassKeyIsNotDeclared(ctx, c, pm);
    PresentMeans(ctx, defaultLength, c, pm);
    if GetsColumn(ctx, c, pm) {
      CreatedType(ctx, parts, engine, c, pm);
    } else if Widens(ctx, c, pm) {
      EnlargedType(ctx, parts, engine, c, pm);
    } else {
      KeptType(ctx, parts, engine, c, pm);
    }
  }

  lemma PresentMeans(ctx: Deployment, defaultLength: int, c: ClassDef, pm: PropertyMeta)
    requires ValidModel(ctx) && ctx.settings.rules == StandardRules(defaultLength) && IsClass(ctx, c)
    ensures var s, k := SituationOf(ctx, c, pm), Ref(ctx, c, pm);
            && (s.Present? <==> k in ctx.db.columns)
            && (s.Present? ==> s.info == ctx.db.columns[k].info && s.decision == Decide(pm, Deployed(ctx, pm), s.info, defaultLength))
    ensures ctx.settings.rules.deployedType(Deployed(ctx, pm)) == DeployedType(Deployed(ctx, pm), defaultLength)
  {
    hide Decide, DeployedType, KeyProperty, Resolvable, NamesApart, KeyNamesApart, OutsidersApart, SuffixIsNew, KeyDeclaredOnce;
    var k := Ref(ctx, c, pm);
    if k in ctx.db.columns {
      assert k.table in ctx.db.tables;
    }
  }

  // Columns of relation tables.

  predicate IsSide(side: string) {
    side == "master" || side == "detail"
  }

  /** The class whose keys a side holds. */
  function SideClass(side: string, c: ClassDef, other: ClassDef): ClassDef {
    if side == "master" then c else other
  }

  /** The parts that may move or retype a side. */
  lemma SideQuiet(ctx: Deployment, parts: seq<seq<Change>>, c: ClassDef, other: ClassDef, r: string, side: string, l: nat)
    requires ValidModel(ctx) && Emission(ctx, parts) && Relates(ctx, c, other, r) && IsSide(side) && l < 20
    ensures |parts| == 20
    ensures Removing(parts[l], ColRef(r, side)) ==> l == 13 && r in ctx.db.tables && SideDecision(ctx, r, side, SideClass(side, c, other)) == Some(Migrate)
    ensures Retyping(parts[l], ColRef(r, side)) ==> l == 14 && r in ctx.db.tables
  {
    hide ValidModel, Emission, Relates, SideDecision, Removing, Retyping, Bucketed, Renamed, IsRelationTable;
    var k := ColRef(r, side);
    EmissionCount(ctx, parts);
    RelationIsNoClassTable(ctx, c, other, r);
    if Removing(parts[l], k) {
      PartRemoves(ctx, parts, l, k);
      if Renamed(ctx, k) {
        RenamedInClass(ctx, k);
      }
      var d, other' :| Relates(ctx, d, other', r) && r in ctx.db.tables
        && ((side == "master" && SideDecision(ctx, r, "master", d) == Some(Migrate)) || (side == "detail" && SideDecision(ctx, r, "detail", other') == Some(Migrate)));
      RelatesOnce(ctx, c, other, d, other', r);
    }
    if Retyping(parts[l], k) {
      PartRetypes(ctx, parts, l, k);
      RetypedInClass(ctx, l, k);
      SideRetyped(ctx, parts, k);
    }
  }

  lemma RenamedInClass(ctx: Deployment, k: ColRef)
    requires Renamed(ctx, k)
    ensures IsClassTable(ctx, k.table)
  {
    hide Migrates, Properties;
  }

  lemma RetypedInClass(ctx: Deployment, l: nat, k: ColRef)
    requires Retyped(ctx, l, k) && !IsClassTable(ctx, k.table)
    ensures l == 14
  {
    hide Migrates, Widens, Properties, IsRelationTable;
  }

  /** What the part that enlarges sides does to one. */
  lemma SideRetyped(ctx: Deployment, parts: seq<seq<Change>>, k: ColRef)
    requires ValidModel(ctx) && Emission(ctx, parts) && |parts| == 20 && Retyping(parts[14], k)
    ensures k.table in ctx.db.tables
  {
    hide ValidModel, Emission, Bucketed, Relates, SideChanges;
    var j :| 0 <= j < |parts[14]| && k in Retypes(parts[14][j]);
    PartIsBucket(ctx, parts, 14, j);
    var c, other, r := FromRelation(ctx, ModifyRelTypes, parts[14][j]);
    SideChangeTable(ctx, c, other, r, parts[14][j]);
  }

  lemma SideChangeTable(ctx: Deployment, c: ClassDef, other: ClassDef, r: string, ch: Change)
    requires ch in RelationChanges(ctx, c, other, r, ModifyRelTypes)
    ensures r in ctx.db.tables && ch.ModifyDataType? && ch.table == r
    ensures exists side :: IsSide(side) && SideDecision(ctx, r, side, SideClass(side, c, other)) == Some(Widen)
              && KeyProperty(ctx, SideClass(side, c, other)).Some?
              && ch == ModifyDataType(r, side, ctx.settings.rules.deployedType(KeyProperty(ctx, SideClass(side, c, other)).value))
  {
    hide KeyProperty;
    if ch in SideChanges(ctx, r, "master", c, ModifyRelTypes) {
      assert IsSide("master") && SideClass("master", c, other) == c;
    } else {
      assert ch in SideChanges(ctx, r, "detail", other, ModifyRelTypes);
      assert IsSide("detail") && SideClass("detail", c, other) == other;
    }
  }

  lemma SideTypeKept(ctx: Deployment, parts: seq<seq<Change>>, engine: Engine, c: ClassDef, other: ClassDef, r: string, side: string, i: nat, info: ColumnInfo)
    requires Runs(ctx, parts, engine) && |parts| == 20 && Relates(ctx, c, other, r) && IsSide(side) && i <= 20
    requires TypedAs(ctx, parts, engine, i, ColRef(r, side), info)
    requires r in ctx.db.tables && SideDecision(ctx, r, side, SideClass(side, c, other)) == Some(Migrate) ==> i >= 14
    requires r in ctx.db.tables ==> i >= 15 || !Retyping(parts[14], ColRef(r, side))
    ensures TypedAs(ctx, parts, engine, 20, ColRef(r, side), info)
  {
    hide ValidModel, Emission, Relates, SideDecision, Removing, Retyping, Run, Flatten;
    forall l | i <= l < 20 ensures !Removing(parts[l], ColRef(r, side)) && !Retyping(parts[l], ColRef(r, side)) {
      SideQuiet(ctx, parts, c, other, r, side, l);
    }
    TypeKept(ctx, parts, engine, i, 20, ColRef(r, side));
  }

  /** A side of a new relation table. */
  lemma NewSide(ctx: Deployment, parts: seq<seq<Change>>, engine: Engine, c: ClassDef, other: ClassDef, r: string, side: string)
    requires Runs(ctx, parts, engine) && |parts| == 20 && Relates(ctx, c, other, r) && IsSide(side) && r !in ctx.db.tables
    requires KeyProperty(ctx, c).Some? && KeyProperty(ctx, other).Some?
    ensures TypedAs(ctx, parts, engine, 20, ColRef(r, side), engine.realise(ctx.settings.rules.deployedType(KeyProperty(ctx, SideClass(side, c, other)).value)))
  {
    hide ValidModel, Emission, Relates, Removing, Retyping, Run, Flatten, KeyProperty, Bucketed;
    var cols := SideColumn(ctx, "master", c) + SideColumn(ctx, "detail", other);
    var ch := CreateTable(r, cols);
    IntoRelation(ctx, CreateRelTables, c, other, r, ch);
    PartMembers(ctx, parts, 15);
    StageOf(ctx, parts, engine, 15);
    SideQuiet(ctx, parts, c, other, r, side, 15);
    var m := if side == "master" then 0 else 1;
    assert cols[m] == NewColumn(side, ctx.settings.rules.deployedType(KeyProperty(ctx, SideClass(side, c, other)).value));
    RunMakes(engine, After(ctx, parts, engine, 15), parts[15], ch, m);
    SideTypeKept(ctx, parts, engine, c, other, r, side, 16, engine.realise(cols[m].columnType));
  }

  /** A side that is made anew. */
  lemma ReplacedSide(ctx: Deployment, parts: seq<seq<Change>>, engine: Engine, c: ClassDef, other: ClassDef, r: string, side: string)
    requires Runs(ctx, parts, engine) && |parts| == 20 && Relates(ctx, c, other, r) && IsSide(side) && r in ctx.db.tables
    requires KeyProperty(ctx, SideClass(side, c, other)).Some? && SideDecision(ctx, r, side, SideClass(side, c, other)) == Some(Migrate)
    ensures TypedAs(ctx, parts, engine, 20, ColRef(r, side), engine.realise(ctx.settings.rules.deployedType(KeyProperty(ctx, SideClass(side, c, other)).value)))
  {
    hide ValidModel, Emission, Relates, Removing, Retyping, Run, Flatten, KeyProperty, Bucketed, SideDecision;
    var key := KeyProperty(ctx, SideClass(side, c, other)).value;
    var x, y := SideAdds(ctx, r, "master", c), SideAdds(ctx, r, "detail", other);
    var col := NewColumn(side, ctx.settings.rules.deployedType(key));
    assert col in if side == "master" then x else y;
    var m :| 0 <= m < |x + y| && (x + y)[m] == col;
    var ch := AddColumns(r, x + y);
    IntoRelation(ctx, AddRelColumns, c, other, r, ch);
    PartMembers(ctx, parts, 16);
    StageOf(ctx, parts, engine, 16);
    SideQuiet(ctx, parts, c, other, r, side, 16);
    RunMakes(engine, After(ctx, parts, engine, 16), parts[16], ch, m);
    SideTypeKept(ctx, parts, engine, c, other, r, side, 17, engine.realise(col.columnType));
  }

  /** The change that enlarges a side, and the only one that retypes it. */
  lemma OneSideChange(ctx: Deployment, c: ClassDef, other: ClassDef, r: string, side: string, ch: Change)
    requires ValidModel(ctx) && Relates(ctx, c, other, r) && IsSide(side) && ch in Bucketed(ctx, ModifyRelTypes) && ColRef(r, side) in Retypes(ch)
    ensures SideDecision(ctx, r, side, SideClass(side, c, other)) == Some(Widen) && KeyProperty(ctx, SideClass(side, c, other)).Some?
    ensures ch == ModifyDataType(r, side, ctx.settings.rules.deployedType(KeyProperty(ctx, SideClass(side, c, other)).value))
  {
    hide ValidModel, Bucketed, Relates, KeyProperty, SideDecision;
    var d, other', r' := FromRelation(ctx, ModifyRelTypes, ch);
    SideChangeTable(ctx, d, other', r', ch);
    RelatesOnce(ctx, c, other, d, other', r);
  }

  lemma EnlargedSide(ctx: Deployment, parts: seq<seq<Change>>, engine: Engine, c: ClassDef, other: ClassDef, r: string, side: string)
    requires Runs(ctx, parts, engine) && |parts| == 20 && Relates(ctx, c, other, r) && IsSide(side) && r in ctx.db.tables
    requires KeyProperty(ctx, SideClass(side, c, other)).Some? && SideDecision(ctx, r, side, SideClass(side, c, other)) == Some(Widen)
    ensures TypedAs(ctx, parts, engine, 20, ColRef(r, side), engine.realise(ctx.settings.rules.deployedType(KeyProperty(ctx, SideClass(side, c, other)).value)))
  {
    hide ValidModel, Emission, Relates, Removing, Retyping, Run, Flatten, KeyProperty, Bucketed, SideDecision;
    var ch := ModifyDataType(r, side, ctx.settings.rules.deployedType(KeyProperty(ctx, SideClass(side, c, other)).value));
    assert ch in SideChanges(ctx, r, side, SideClass(side, c, other), ModifyRelTypes);
    IntoRelation(ctx, ModifyRelTypes, c, other, r, ch);
    PartMembers(ctx, parts, 14);
    StageOf(ctx, parts, engine, 14);
    SideQuiet(ctx, parts, c, other, r, side, 14);
    forall x | x in parts[14] && ColRef(r, side) in Retypes(x) ensures x == ch {
      OneSideChange(ctx, c, other, r, side, x);
    }
    RunRetypes(engine, After(ctx, parts, engine, 14), parts[14], ch);
    SideTypeKept(ctx, parts, engine, c, other, r, side, 15, engine.realise(ch.newType));
  }

  lemma KeptSide(ctx: Deployment, parts: seq<seq<Change>>, engine: Engine, c: ClassDef, other: ClassDef, r: string, side: string)
    requires Runs(ctx, parts, engine) && |parts| == 20 && Relates(ctx, c, other, r) && IsSide(side)
    requires ColRef(r, side) in ctx.db.columns && SideDecision(ctx, r, side, SideClass(side, c, other)) == Some(Keep)
    ensures TypedAs(ctx, parts, engine, 20, ColRef(r, side), ctx.db.columns[ColRef(r, side)].info)
  {
    hide ValidModel, Emission, Relates, Run, Flatten, KeyProperty, Bucketed, SideDecision;
    var k := ColRef(r, side);
    if Retyping(parts[14], k) {
      var j :| 0 <= j < |parts[14]| && k in Retypes(parts[14][j]);
      PartIsBucket(ctx, parts, 14, j);
      OneSideChange(ctx, c, other, r, side, parts[14][j]);
    }
    assert parts[..0] == [];
    StartIs(ctx, engine);
    SideTypeKept(ctx, parts, engine, c, other, r, side, 0, ctx.db.columns[k].info);
  }

  /** A side of a relation table that is new, or that was there: as it was where the comparison keeps
      it, otherwise of the type of the key it holds, the master that of the class with the collection. */
  lemma SideAfter(ctx: Deployment, parts: seq<seq<Change>>, engine: Engine, defaultLength: int, c: ClassDef, pm: PropertyMeta, other: ClassDef,
                  side: string, key: PropertyMeta)
    requires Runs(ctx, parts, engine) && ctx.settings.rules == StandardRules(defaultLength) && ManyToMany(ctx, c, pm, other)
    requires (side == "master" && IsKeyOf(ctx, c, key)) || (side == "detail" && IsKeyOf(ctx, other, key))
    requires var t := ctx.settings.naming.relation(c.name, pm.name); t !in ctx.db.tables || ColRef(t, side) in ctx.db.columns
    ensures var r, k := Run(engine, ctx.db, Flatten(parts)).value, ColRef(ctx.settings.naming.relation(c.name, pm.name), side);
            && k in r.columns
            && r.columns[k].info == if k in ctx.db.columns && DecideRelation(key, ctx.db.columns[k].info) == Keep then ctx.db.columns[k].info
                                    else engine.realise(DeployedType(key, defaultLength))
  {
    hide ValidModel, Emission, Run, Flatten, KeyProperty, DecideRelation, DeployedType, Relates, Properties, Root;
    PartCount(ctx, parts, engine);
    assert parts[..20] == parts;
    var r := ctx.settings.naming.relation(c.name, pm.name);
    var k := ColRef(r, side);
    RelatesExactly(ctx, defaultLength, c, other, r);
    RelatesClasses(ctx, c, other, r);
    PlanKeysKnown(ctx, c, other);
    KeyIsKeyProperty(ctx, SideClass(side, c, other), key);
    SideDecided(ctx, defaultLength, r, side, SideClass(side, c, other), key);
    if r !in ctx.db.tables {
      ColumnsInTables(ctx, k);
      NewSide(ctx, parts, engine, c, other, r, side);
    } else if SideDecision(ctx, r, side, SideClass(side, c, other)) == Some(Migrate) {
      ReplacedSide(ctx, parts, engine, c, other, r, side);
    } else if SideDecision(ctx, r, side, SideClass(side, c, other)) == Some(Widen) {
      EnlargedSide(ctx, parts, engine, c, other, r, side);
    } else {
      assert SideDecision(ctx, r, side, SideClass(side, c, other)).value.Keep?;
      KeptSide(ctx, parts, engine, c, other, r, side);
    }
  }

  lemma SideDecided(ctx: Deployment, defaultLength: int, r: string, side: string, c: ClassDef, key: PropertyMeta)
    requires ctx.settings.rules == StandardRules(defaultLength) && KeyProperty(ctx, c) == Some(key)
    ensures ColRef(r, side) in ctx.db.columns ==>
              SideDecision(ctx, r, side, c) == Some(DecideRelation(key, ctx.db.columns[ColRef(r, side)].info))
    ensures ctx.settings.rules.deployedType(key) == DeployedType(key, defaultLength)
  {
    hide KeyProperty, DecideRelation, DeployedType;
  }

  lemma PlanKeysKnown(ctx: Deployment, c: ClassDef, other: ClassDef)
    requires ValidModel(ctx) && IsClass(ctx, c) && IsClass(ctx, other)
    ensures KeyProperty(ctx, c).Some? && KeyProperty(ctx, other).Some?
  {
    hide ValidModel, KeyProperty, Properties;
    ClassFacts(ctx, c);
    ClassFacts(ctx, other);
  }

  lemma ColumnsInTables(ctx: Deployment, k: ColRef)
    requires ValidModel(ctx)
    ensures k in ctx.db.columns ==> k.table in ctx.db.tables
  {
    hide Resolvable, NamesApart, KeyNamesApart, OutsidersApart, SuffixIsNew, KeyDeclaredOnce;
  }
}
