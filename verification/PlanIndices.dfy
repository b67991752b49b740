/** What a plan does to indices and primary keys, which are no part of the schema, and which foreign keys
    it drops: exactly these. An index is made along with the column of an indexed property, but
    not where the column is added to an existing table; a primary key is replaced where the
    key column of a superclass, or a side of a relation table, is made anew; and a foreign key
    is dropped where the key it refers to moves or its relation table is reset. */
module PlanIndices {
  import opened Wrappers
  import opened PropertyTypes
  import opened Database
  import opened DeployPlan
  import opened PlanShape
  import opened PlanColumns
  import opened PlanRuns
  import opened PlanKeys
  import opened PlanTargets

  /** The properties of new tables and those whose columns are made anew; a column added to an existing
      table gets no index. */
  ghost predicate Indexed(ctx: Deployment, c: ClassDef, pm: PropertyMeta, ch: Change) {
    var n := ctx.settings.naming;
    && IsProperty(ctx, c, pm) && pm.indexed && !pm.unique && pm.kind != COLLECTION
    && (n.table(c.name) !in ctx.db.tables || Migrates(ctx, c, pm))
    && ch == CreateIndex(n.table(c.name), n.index(c.name, pm.name), n.column(pm.name))
  }

  lemma IndexedExactly(ctx: Deployment, c: ClassDef, pm: PropertyMeta, ch: Change)
    requires ValidModel(ctx) && IsProperty(ctx, c, pm)
    ensures ch in PropertyChanges(ctx, c, pm, AddIndices) <==> Indexed(ctx, c, pm, ch)
  {
    hide ValidModel, Properties, KeyProperty, Root;
    ClassFacts(ctx, c);
  }

  /** The indices of a plan. */
  lemma IndicesExactly(ctx: Deployment, parts: seq<seq<Change>>, ch: Change)
    requires ValidModel(ctx) && Emission(ctx, parts)
    ensures |parts| == 20 && (ch in parts[8] <==> exists c, pm :: Indexed(ctx, c, pm, ch))
  {
    hide ValidModel, Properties, Indexed, BucketChanges, PropertyChanges;
    PartMembers(ctx, parts, 8);
    assert Emitted()[8] == AddIndices;
    hide Emission;
    if ch in Bucketed(ctx, AddIndices) {
      var c, pm := FromBucket(ctx, AddIndices, ch);
      IndexedExactly(ctx, c, pm, ch);
    }
    if c, pm :| Indexed(ctx, c, pm, ch) {
      IndexedProperty(ctx, c, pm, ch);
      IndexedExactly(ctx, c, pm, ch);
      IntoBucket(ctx, AddIndices, c, pm, ch);
    }
  }

  lemma IndexedProperty(ctx: Deployment, c: ClassDef, pm: PropertyMeta, ch: Change)
    requires Indexed(ctx, c, pm, ch)
    ensures IsProperty(ctx, c, pm)
  {
  }

  /** The key column of a superclass is made anew. */
  ghost predicate KeyReplaced(ctx: Deployment, c: ClassDef) {
    IsClass(ctx, c) && IsRoot(ctx, c) && KeyProperty(ctx, c).Some? && Migrates(ctx, c, KeyProperty(ctx, c).value)
  }

  predicate KeyBucket(b: Bucket) {
    b == CleanPK || b == DropPK || b == CreatePK
  }

  /** The old type of the key is restated, its primary key dropped and the new one made. */
  ghost predicate KeyChange(ctx: Deployment, c: ClassDef, b: Bucket, ch: Change) {
    var t, k := ctx.settings.naming.table(c.name), KeyColumn(ctx, c);
    && KeyReplaced(ctx, c)
    && match b
       case CleanPK => ColRef(t, k) in ctx.db.columns && ch == ModifyDataType(t, k, ctx.settings.rules.currentType(ctx.db.columns[ColRef(t, k)].info))
       case DropPK => ch == DropPrimaryKey(t)
       case _ => ch == AddPrimaryKey(t, [k])
  }

  lemma KeyChangeExactly(ctx: Deployment, c: ClassDef, pm: PropertyMeta, b: Bucket, ch: Change)
    requires ValidModel(ctx) && IsProperty(ctx, c, pm) && KeyBucket(b)
    ensures ch in PropertyChanges(ctx, c, pm, b) <==> KeyProperty(ctx, c) == Some(pm) && KeyChange(ctx, c, b, ch)
  {
    hide ValidModel, Properties, PropertyNames;
    ClassFacts(ctx, c);
    KeyColumnName(ctx, c);
    RootFacts(ctx, c);
    hide KeyProperty, Root, KeyColumn;
    assert IsKey(ctx, c, pm.name) <==> KeyProperty(ctx, c) == Some(pm);
  }

  lemma KeyIsProperty(ctx: Deployment, c: ClassDef)
    requires ValidModel(ctx) && KeyReplaced(ctx, c)
    ensures KeyProperty(ctx, c).Some? && IsProperty(ctx, c, KeyProperty(ctx, c).value)
  {
    hide ValidModel, Properties, KeyProperty, Migrates;
    ClassFacts(ctx, c);
  }

  lemma ReplacedOf(ctx: Deployment, c: ClassDef, b: Bucket, ch: Change)
    requires KeyChange(ctx, c, b, ch)
    ensures KeyReplaced(ctx, c)
  {
  }

  lemma KeyBucketExactly(ctx: Deployment, b: Bucket, ch: Change)
    requires ValidModel(ctx) && KeyBucket(b)
    ensures ch in Bucketed(ctx, b) <==> exists c :: KeyChange(ctx, c, b, ch)
  {
    hide ValidModel, Properties, KeyChange, BucketChanges, PropertyChanges, KeyProperty, KeyReplaced;
    if ch in Bucketed(ctx, b) {
      var c, pm := FromBucket(ctx, b, ch);
      KeyChangeExactly(ctx, c, pm, b, ch);
    }
    if c :| KeyChange(ctx, c, b, ch) {
      ReplacedOf(ctx, c, b, ch);
      KeyIsProperty(ctx, c);
      KeyChangeExactly(ctx, c, KeyProperty(ctx, c).value, b, ch);
      IntoBucket(ctx, b, c, KeyProperty(ctx, c).value, ch);
    }
  }

  /** The primary keys of class tables: touched exactly where the key column of a superclass is made anew. */
  lemma PrimaryKeysExactly(ctx: Deployment, parts: seq<seq<Change>>, ch: Change)
    requires ValidModel(ctx) && Emission(ctx, parts)
    ensures |parts| == 20
    ensures ch in parts[1] <==> exists c :: KeyChange(ctx, c, CleanPK, ch)
    ensures ch in parts[2] <==> exists c :: KeyChange(ctx, c, DropPK, ch)
    ensures ch in parts[11] <==> exists c :: KeyChange(ctx, c, CreatePK, ch)
  {
    hide ValidModel, KeyChange, BucketChanges;
    PartMembers(ctx, parts, 1);
    PartMembers(ctx, parts, 2);
    PartMembers(ctx, parts, 11);
    assert Emitted()[1] == CleanPK && Emitted()[2] == DropPK && Emitted()[11] == CreatePK;
    KeyBucketExactly(ctx, CleanPK, ch);
    KeyBucketExactly(ctx, DropPK, ch);
    KeyBucketExactly(ctx, CreatePK, ch);
  }

  /** A side of the relation table is made anew. */
  predicate SideReplaced(ctx: Deployment, c: ClassDef, other: ClassDef, r: string) {
    SideDecision(ctx, r, "master", c) == Some(Migrate) || SideDecision(ctx, r, "detail", other) == Some(Migrate)
  }

  /** The primary keys of relation tables, over both sides: made with the table, and dropped and made again
      where a side is made anew. */
  lemma RelationPrimaryKeysExactly(ctx: Deployment, parts: seq<seq<Change>>, ch: Change)
    requires ValidModel(ctx) && Emission(ctx, parts)
    ensures |parts| == 20
    ensures ch in parts[12] <==> exists c, other, r :: Relates(ctx, c, other, r) && r in ctx.db.tables && SideReplaced(ctx, c, other, r) && ch == DropPrimaryKey(r)
    ensures ch in parts[18] <==> exists c, other, r :: Relates(ctx, c, other, r) && (r in ctx.db.tables ==> SideReplaced(ctx, c, other, r))
                                                       && ch == AddPrimaryKey(r, ["master", "detail"])
  {
    hide ValidModel, BucketChanges, Relates, SideReplaced;
    PartMembers(ctx, parts, 12);
    PartMembers(ctx, parts, 18);
    assert Emitted()[12] == DropRelPK && Emitted()[18] == CreateRelPK;
    hide Emission, Emitted, Bucketed;
    if ch in Bucketed(ctx, DropRelPK) {
      var c, other, r := FromRelation(ctx, DropRelPK, ch);
      RelationKeyChange(ctx, c, other, r, ch);
    }
    if c, other, r :| Relates(ctx, c, other, r) && r in ctx.db.tables && SideReplaced(ctx, c, other, r) && ch == DropPrimaryKey(r) {
      RelationKeyChange(ctx, c, other, r, ch);
      IntoRelation(ctx, DropRelPK, c, other, r, ch);
    }
    if ch in Bucketed(ctx, CreateRelPK) {
      var c, other, r := FromRelation(ctx, CreateRelPK, ch);
      RelationKeyChange(ctx, c, other, r, ch);
    }
    if c, other, r :| Relates(ctx, c, other, r) && (r in ctx.db.tables ==> SideReplaced(ctx, c, other, r)) && ch == AddPrimaryKey(r, ["master", "detail"]) {
      RelationKeyChange(ctx, c, other, r, ch);
      IntoRelation(ctx, CreateRelPK, c, other, r, ch);
    }
  }

  lemma RelationKeyChange(ctx: Deployment, c: ClassDef, other: ClassDef, r: string, ch: Change)
    ensures ch in RelationChanges(ctx, c, other, r, DropRelPK) <==> r in ctx.db.tables && SideReplaced(ctx, c, other, r) && ch == DropPrimaryKey(r)
    ensures ch in RelationChanges(ctx, c, other, r, CreateRelPK) <==>
              (r in ctx.db.tables ==> SideReplaced(ctx, c, other, r)) && ch == AddPrimaryKey(r, ["master", "detail"])
  {
    hide SideDecision;
  }

  // Foreign keys that are dropped.

  /** The key refers to the table of a superclass whose key column is made anew or enlarged, or it belongs
      to a relation table of which a side is made anew. */
  ghost predicate HasToGo(ctx: Deployment, fk: ForeignKey) {
    || (exists c :: IsClass(ctx, c) && IsRoot(ctx, c) && fk.refTable == ctx.settings.naming.table(c.name) && KeyMoves(ctx, c))
    || (exists c, other :: Relates(ctx, c, other, fk.table) && fk.table in ctx.db.tables && SideReplaced(ctx, c, other, fk.table))
  }

  predicate KeyMoves(ctx: Deployment, c: ClassDef) {
    KeyProperty(ctx, c).Some? && (Migrates(ctx, c, KeyProperty(ctx, c).value) || Widens(ctx, c, KeyProperty(ctx, c).value))
  }

  lemma {:induction false} DroppedByClass(ctx: Deployment, names: seq<string>, n: string) returns (c: ClassDef)
    requires (forall m | m in names :: m in ctx.classes) && n in AllDrops(ctx, names)
    ensures IsClass(ctx, c) && n in ClassDrops(ctx, c, Properties(ctx, c))
  {
    hide ClassDrops, Properties;
    var front, last := names[..|names| - 1], names[|names| - 1];
    assert Grounded(ctx, last);
    if n in AllDrops(ctx, front) {
      c := DroppedByClass(ctx, front, n);
    } else {
      c := ctx.classes[last];
    }
  }

  lemma {:induction false} DroppedByProperty(ctx: Deployment, c: ClassDef, ps: seq<PropertyMeta>, n: string) returns (pm: PropertyMeta)
    requires n in ClassDrops(ctx, c, ps)
    ensures pm in ps && n in PropertyDrops(ctx, c, pm)
  {
    hide PropertyDrops;
    var front, last := ps[..|ps| - 1], ps[|ps| - 1];
    if n in ClassDrops(ctx, c, front) {
      pm := DroppedByProperty(ctx, c, front, n);
    } else {
      pm := last;
    }
  }

  lemma DropHasToGo(ctx: Deployment, c: ClassDef, pm: PropertyMeta, n: string) returns (fk: ForeignKey)
    requires ValidModel(ctx) && IsProperty(ctx, c, pm) && n in PropertyDrops(ctx, c, pm)
    ensures fk in ctx.db.keys && fk.name == n && HasToGo(ctx, fk)
  {
    hide ValidModel, Properties, KeyProperty, SituationOf, SideDecision;
    ClassFacts(ctx, c);
    var keys := ctx.db.keys;
    if DropsExportedKeys(ctx, c, pm) && n in ExportedKeys(ctx, Table(ctx, c)) {
      var i :| 0 <= i < |keys| && keys[i].refTable == Table(ctx, c) && keys[i].name == n;
      fk := keys[i];
      assert KeyMoves(ctx, c);
    } else {
      var other, r := Find(ctx, pm.itemsClass).value, Relation(ctx, c, pm);
      assert n in RelationDrops(ctx, c, other, r);
      var i :| 0 <= i < |keys| && keys[i].table == r && keys[i].name == n;
      fk := keys[i];
      assert Relates(ctx, c, other, r);
      assert SideReplaced(ctx, c, other, r);
    }
  }

  lemma GoesByKey(ctx: Deployment, c: ClassDef, fk: ForeignKey)
    requires ValidModel(ctx) && IsClass(ctx, c) && IsRoot(ctx, c) && fk in ctx.db.keys && fk.refTable == ctx.settings.naming.table(c.name) && KeyMoves(ctx, c)
    ensures fk.name in AllDrops(ctx, ctx.order)
  {
    hide ValidModel, Properties, KeyProperty, SituationOf, AllDrops, OwnsRelation;
    ClassFacts(ctx, c);
    var pm := KeyProperty(ctx, c).value;
    var i :| 0 <= i < |ctx.db.keys| && ctx.db.keys[i] == fk;
    assert fk.name in ExportedKeys(ctx, Table(ctx, c));
    assert DropsExportedKeys(ctx, c, pm);
    PropertyDropsAll(ctx, c, pm);
  }

  lemma GoesBySide(ctx: Deployment, c: ClassDef, other: ClassDef, fk: ForeignKey)
    requires fk in ctx.db.keys && Relates(ctx, c, other, fk.table) && fk.table in ctx.db.tables && SideReplaced(ctx, c, other, fk.table)
    ensures fk.name in AllDrops(ctx, ctx.order)
  {
    hide Properties, SituationOf, AllDrops, SideDecision, DropsExportedKeys, ExportedKeys;
    var pm :| IsProperty(ctx, c, pm) && OwnsRelation(ctx, c, pm) && fk.table == Relation(ctx, c, pm) && other == Find(ctx, pm.itemsClass).value;
    var i :| 0 <= i < |ctx.db.keys| && ctx.db.keys[i] == fk;
    assert fk.name in ImportedKeys(ctx, fk.table);
    PropertyDropsAll(ctx, c, pm);
  }

  /** Exactly the names of the foreign keys that have to go are dropped, by changes that name keys that are there. */
  lemma DropsExactly(ctx: Deployment, parts: seq<seq<Change>>, n: string)
    requires ValidModel(ctx) && Emission(ctx, parts)
    ensures |parts| == 20
    ensures (exists i :: 0 <= i < |parts[0]| && parts[0][i].DropForeignKey? && parts[0][i].name == n) <==>
              exists fk :: fk in ctx.db.keys && fk.name == n && HasToGo(ctx, fk)
    ensures forall ch | ch in parts[0] :: DropsOne(ctx, ch)
  {
    hide ValidModel, HasToGo, BucketChanges, AllDrops, Properties;
    if n in AllDrops(ctx, ctx.order) {
      var c := DroppedByClass(ctx, ctx.order, n);
      var pm := DroppedByProperty(ctx, c, Properties(ctx, c), n);
      var fk := DropHasToGo(ctx, c, pm, n);
    }
    forall fk | fk in ctx.db.keys && fk.name == n && HasToGo(ctx, fk) ensures n in AllDrops(ctx, ctx.order) {
      Goes(ctx, fk);
    }
    forall ch | ch in parts[0] ensures DropsOne(ctx, ch) {
      assert DropsExisting(ctx, ch);
      var j :| 0 <= j < |ctx.db.keys| && ctx.db.keys[j].name == ch.name && ctx.db.keys[j].table == ch.table;
      assert ctx.db.keys[j] in ctx.db.keys;
    }
  }

  ghost predicate DropsOne(ctx: Deployment, ch: Change) {
    exists fk :: fk in ctx.db.keys && ch == DropForeignKey(fk.table, fk.name)
  }

  lemma Goes(ctx: Deployment, fk: ForeignKey)
    requires ValidModel(ctx) && fk in ctx.db.keys && HasToGo(ctx, fk)
    ensures fk.name in AllDrops(ctx, ctx.order)
  {
    hide ValidModel, KeyMoves, SideReplaced, Relates, AllDrops, IsRoot;
    if c :| IsClass(ctx, c) && IsRoot(ctx, c) && fk.refTable == ctx.settings.naming.table(c.name) && KeyMoves(ctx, c) {
      GoesByKey(ctx, c, fk);
    } else {
      var c, other :| Relates(ctx, c, other, fk.table) && fk.table in ctx.db.tables && SideReplaced(ctx, c, other, fk.table);
      GoesBySide(ctx, c, other, fk);
    }
  }
}
