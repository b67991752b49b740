/** The foreign keys of a plan: which ones it makes, that no two of those made in one part have
    the same table and name, and which keys are there before each part. As with the columns,
    the stages are described outright: the old keys less the dropped ones, the keys of class
    tables from their part on, and those of relation tables at the end. */
module PlanKeys {
  import opened Wrappers
  import opened PropertyTypes
  import opened Database
  import opened Batches
  import opened DeployPlan
  import opened PlanShape
  import opened PlanColumns
  import opened PlanStages
  import opened PlanRuns
  import Listing

  /** A foreign key of the table of class c, as it is called for a property. */
  function LinkOf(ctx: Deployment, c: ClassDef, pm: PropertyMeta): (string, string) {
    (Table(ctx, c), ctx.settings.naming.foreignKey(c.name, pm.name))
  }

  /** The plan gives the property a column, or the subclass table its key column, and links it. */
  ghost predicate Linked(ctx: Deployment, c: ClassDef, pm: PropertyMeta) {
    && IsClass(ctx, c)
    && ((pm in Properties(ctx, c) && GetsColumn(ctx, c, pm)) || (GetsKeyColumn(ctx, c) && KeyProperty(ctx, c) == Some(pm)))
    && ForeignKeys(ctx, c, pm) != []
  }

  /** k is a foreign key of a class table that the plan makes. */
  ghost predicate ClassKeyMade(ctx: Deployment, k: (string, string)) {
    exists c, pm :: Linked(ctx, c, pm) && k == LinkOf(ctx, c, pm)
  }

  /** The names of the two foreign keys of relation table r: made anew, or made with the table. */
  function RelationKeyNames(ctx: Deployment, r: string): (string, string) {
    var fk := ctx.settings.naming.foreignKey;
    if r in ctx.db.tables then ("fk_" + r + "_0", "fk_" + r + "_1") else (fk(r, "master"), fk(r, "detail"))
  }

  /** The plan makes the foreign keys of relation table r between c and other. */
  ghost predicate RelationLinked(ctx: Deployment, c: ClassDef, other: ClassDef, r: string) {
    && Relates(ctx, c, other, r)
    && (if r in ctx.db.tables then Resets(ctx, r, c, other) else ctx.settings.referentialIntegrity)
  }

  /** k is a foreign key of a relation table that the plan makes. */
  ghost predicate RelationKeyMade(ctx: Deployment, k: (string, string)) {
    exists c, other :: RelationLinked(ctx, c, other, k.0) && (k.1 == RelationKeyNames(ctx, k.0).0 || k.1 == RelationKeyNames(ctx, k.0).1)
  }

  /** The foreign keys before the i-th part of a plan that drops the given ones first. */
  ghost predicate HasKey(ctx: Deployment, drops: seq<Change>, i: nat, k: (string, string)) {
    || (k in KeyNames(ctx.db) && (i == 0 || !DroppingKey(drops, k)))
    || (10 <= i && ClassKeyMade(ctx, k))
    || (20 <= i && RelationKeyMade(ctx, k))
  }

  ghost predicate KeysReached(ctx: Deployment, drops: seq<Change>, i: nat, db: Schema) {
    forall k :: k in KeyNames(db) <==> HasKey(ctx, drops, i, k)
  }

  // The keys of class tables.

  /** The foreign keys of a property: one or none, called after it. */
  lemma ForeignKeysShape(ctx: Deployment, c: ClassDef, pm: PropertyMeta)
    ensures |ForeignKeys(ctx, c, pm)| <= 1
    ensures forall ch | ch in ForeignKeys(ctx, c, pm) :: AddsKey(ch) == {LinkOf(ctx, c, pm)}
  {
    hide KeyProperty, IsKey, HasProperty, Ancestor;
  }

  lemma LinkShape(ctx: Deployment, ch: Change) returns (c: ClassDef, pm: PropertyMeta)
    requires ch in Bucketed(ctx, CreateFKs)
    ensures Linked(ctx, c, pm) && AddsKey(ch) == {LinkOf(ctx, c, pm)}
  {
    hide BucketChanges, Properties, ForeignKeys, GetsColumn, GetsKeyColumn, KeyProperty, AllPropertyChanges, AddsKey;
    c := FromClass(ctx, ctx.order, CreateFKs, ch);
    var ps := Properties(ctx, c);
    if ch in AllPropertyChanges(ctx, c, ps, CreateFKs) {
      pm := FromProperty(ctx, c, ps, CreateFKs, ch);
    } else {
      pm := KeyOfLink(ctx, c, ch);
    }
    ForeignKeysShape(ctx, c, pm);
  }

  lemma KeyOfLink(ctx: Deployment, c: ClassDef, ch: Change) returns (pm: PropertyMeta)
    requires ch in KeyForeignKeys(ctx, c)
    ensures GetsKeyColumn(ctx, c) && KeyProperty(ctx, c) == Some(pm) && ch in ForeignKeys(ctx, c, pm)
  {
    hide ForeignKeys, KeyProperty;
    pm := KeyProperty(ctx, c).value;
  }

  lemma LinkIn(ctx: Deployment, c: ClassDef, pm: PropertyMeta)
    requires Linked(ctx, c, pm)
    ensures AddingKey(Bucketed(ctx, CreateFKs), LinkOf(ctx, c, pm))
  {
    hide BucketChanges, Properties, ForeignKeys, GetsColumn, GetsKeyColumn, KeyProperty, AllPropertyChanges, AddsKey;
    ForeignKeysShape(ctx, c, pm);
    var ch, ps := ForeignKeys(ctx, c, pm)[0], Properties(ctx, c);
    if pm in ps && GetsColumn(ctx, c, pm) {
      ToProperties(ctx, c, ps, CreateFKs, pm, ch);
    }
    assert ch in ClassChanges(ctx, c, ps, CreateFKs);
    ToBucket(ctx, ctx.order, CreateFKs, c, ch);
    var s := Bucketed(ctx, CreateFKs);
    var i :| 0 <= i < |s| && s[i] == ch;
  }

  /** The class part makes exactly the keys of the columns it makes. */
  lemma ClassKeysExact(ctx: Deployment, k: (string, string))
    ensures AddingKey(Bucketed(ctx, CreateFKs), k) <==> ClassKeyMade(ctx, k)
  {
    hide Bucketed, Linked, AddsKey;
    var s := Bucketed(ctx, CreateFKs);
    if AddingKey(s, k) {
      var i :| 0 <= i < |s| && k in AddsKey(s[i]);
      var c, pm := LinkShape(ctx, s[i]);
    }
    if ClassKeyMade(ctx, k) {
      var c, pm :| Linked(ctx, c, pm) && k == LinkOf(ctx, c, pm);
      LinkIn(ctx, c, pm);
    }
  }

  // The keys of relation tables.

  lemma LinkRelationShape(ctx: Deployment, c: ClassDef, other: ClassDef, r: string)
    requires KeyProperty(ctx, c).Some? && KeyProperty(ctx, other).Some?
    ensures var s := LinkRelation(ctx, c, other, r);
            if (if r in ctx.db.tables then Resets(ctx, r, c, other) else ctx.settings.referentialIntegrity) then
              |s| == 2 && AddsKey(s[0]) == {(r, RelationKeyNames(ctx, r).0)} && AddsKey(s[1]) == {(r, RelationKeyNames(ctx, r).1)}
            else s == []
  {
    hide KeyProperty, Resets;
  }

  lemma RelationLinkShape(ctx: Deployment, ch: Change, k: (string, string))
    requires ValidModel(ctx) && ch in Bucketed(ctx, CreateRelFKs) && k in AddsKey(ch)
    ensures RelationKeyMade(ctx, k)
  {
    hide Bucketed, ValidModel, Relates, Resets, LinkRelation, AddsKey, KeyProperty, RelationKeyNames;
    var c, other, r := FromRelation(ctx, CreateRelFKs, ch);
    KeysKnown(ctx, c, other);
    LinkRelationShape(ctx, c, other, r);
    assert ch in LinkRelation(ctx, c, other, r);
    assert RelationLinked(ctx, c, other, k.0);
  }

  lemma RelationLinkIn(ctx: Deployment, k: (string, string))
    requires ValidModel(ctx) && RelationKeyMade(ctx, k)
    ensures AddingKey(Bucketed(ctx, CreateRelFKs), k)
  {
    hide Bucketed, ValidModel, Relates, Resets, LinkRelation, AddsKey, KeyProperty, RelationKeyNames;
    var c, other :| RelationLinked(ctx, c, other, k.0) && (k.1 == RelationKeyNames(ctx, k.0).0 || k.1 == RelationKeyNames(ctx, k.0).1);
    RelatesClasses(ctx, c, other, k.0);
    KeysKnown(ctx, c, other);
    LinkRelationShape(ctx, c, other, k.0);
    var ch := LinkRelation(ctx, c, other, k.0)[if k.1 == RelationKeyNames(ctx, k.0).0 then 0 else 1];
    assert k == (k.0, k.1) && k in AddsKey(ch);
    IntoRelation(ctx, CreateRelFKs, c, other, k.0, ch);
    var s := Bucketed(ctx, CreateRelFKs);
    var i :| 0 <= i < |s| && s[i] == ch;
  }

  /** The relation part makes exactly the keys of the relation tables it makes or resets. */
  lemma RelationKeysExact(ctx: Deployment, k: (string, string))
    requires ValidModel(ctx)
    ensures AddingKey(Bucketed(ctx, CreateRelFKs), k) <==> RelationKeyMade(ctx, k)
  {
    hide Bucketed, ValidModel, RelationKeyMade, AddsKey;
    var s := Bucketed(ctx, CreateRelFKs);
    if AddingKey(s, k) {
      var i :| 0 <= i < |s| && k in AddsKey(s[i]);
      RelationLinkShape(ctx, s[i], k);
    }
    if RelationKeyMade(ctx, k) {
      RelationLinkIn(ctx, k);
    }
  }

  lemma KeysKnown(ctx: Deployment, c: ClassDef, other: ClassDef)
    requires ValidModel(ctx) && IsClass(ctx, c) && IsClass(ctx, other)
    ensures KeyProperty(ctx, c).Some? && KeyProperty(ctx, other).Some?
  {
    hide ValidModel, KeyProperty, Properties;
    ClassFacts(ctx, c);
    ClassFacts(ctx, other);
  }

  // No key is made twice in a part.

  predicate KeysApart(s: seq<Change>) {
    forall i, j | 0 <= i < j < |s| :: AddsKey(s[i]) !! AddsKey(s[j])
  }

  lemma ApartConcat(x: seq<Change>, y: seq<Change>)
    requires KeysApart(x) && KeysApart(y) && forall i, j | 0 <= i < |x| && 0 <= j < |y| :: AddsKey(x[i]) !! AddsKey(y[j])
    ensures KeysApart(x + y)
  {
    hide AddsKey;
  }

  predicate LinkBucket(b: Bucket) {
    b == CreateFKs || b == CreateRelFKs
  }

  lemma PropertyKeysApart(ctx: Deployment, c: ClassDef, pm: PropertyMeta, b: Bucket)
    requires ValidModel(ctx) && IsProperty(ctx, c, pm) && LinkBucket(b)
    ensures KeysApart(PropertyChanges(ctx, c, pm, b))
  {
    hide ValidModel, ForeignKeys, GetsColumn, RelationPart, Properties, AddsKey;
    if b == CreateFKs {
      ForeignKeysShape(ctx, c, pm);
    } else {
      RelationKeysApart(ctx, c, pm);
    }
  }

  lemma RelationKeysApart(ctx: Deployment, c: ClassDef, pm: PropertyMeta)
    requires ValidModel(ctx) && IsProperty(ctx, c, pm)
    ensures KeysApart(RelationPart(ctx, c, pm, CreateRelFKs))
  {
    hide ValidModel, LinkRelation, OwnsRelation, KeyProperty, Properties, AddsKey, RelationKeyNames, Resets;
    if OwnsRelation(ctx, c, pm) {
      var other := OtherOf(ctx, c, pm);
      LinkRelationShape(ctx, c, other, Relation(ctx, c, pm));
      RelationNamesDiffer(ctx, c, pm);
    }
  }

  lemma OtherOf(ctx: Deployment, c: ClassDef, pm: PropertyMeta) returns (other: ClassDef)
    requires ValidModel(ctx) && IsProperty(ctx, c, pm) && OwnsRelation(ctx, c, pm)
    ensures Find(ctx, pm.itemsClass) == Some(other) && KeyProperty(ctx, c).Some? && KeyProperty(ctx, other).Some?
  {
    hide ValidModel, Properties, KeyProperty, SituationOf;
    other := Find(ctx, pm.itemsClass).value;
    assert Grounded(ctx, pm.itemsClass);
    KeysKnown(ctx, c, other);
  }

  lemma RelationNamesDiffer(ctx: Deployment, c: ClassDef, pm: PropertyMeta)
    requires ValidModel(ctx) && IsProperty(ctx, c, pm)
    ensures var names := RelationKeyNames(ctx, Relation(ctx, c, pm)); names.0 != names.1
  {
    hide Properties, PropertyNames, Resolvable, SuffixIsNew, WellFormed, KeyDeclaredOnce, NamesApart;
    ClassFacts(ctx, c);
    var r := Relation(ctx, c, pm);
    var x, y := "fk_" + r + "_0", "fk_" + r + "_1";
    assert x[|x| - 1] == '0' && y[|y| - 1] == '1';
  }

  /** The tables and names of the keys a property makes; keys of different properties differ. */
  lemma PropertyKeysDiffer(ctx: Deployment, c: ClassDef, p: PropertyMeta, q: PropertyMeta, b: Bucket, x: Change, y: Change)
    requires ValidModel(ctx) && IsClass(ctx, c) && LinkBucket(b) && p.name != q.name
    requires p.name in PropertyNames(ctx) && q.name in PropertyNames(ctx)
    requires x in PropertyChanges(ctx, c, p, b) && y in PropertyChanges(ctx, c, q, b)
    ensures AddsKey(x) !! AddsKey(y)
  {
    hide PropertyChanges, PropertyNames, Resolvable, SuffixIsNew, WellFormed, KeyDeclaredOnce;
    if b == CreateFKs {
      LinkNewShape(ctx, c, p, x);
      LinkNewShape(ctx, c, q, y);
    } else {
      PropertyKind(ctx, c, p, b, x);
      PropertyKind(ctx, c, q, b, y);
    }
  }

  lemma LinkNewShape(ctx: Deployment, c: ClassDef, pm: PropertyMeta, ch: Change)
    requires ch in PropertyChanges(ctx, c, pm, CreateFKs)
    ensures AddsKey(ch) == {LinkOf(ctx, c, pm)}
  {
    hide ForeignKeys, GetsColumn;
    ForeignKeysShape(ctx, c, pm);
  }

  lemma {:induction false} PropertiesKeysApart(ctx: Deployment, c: ClassDef, ps: seq<PropertyMeta>, b: Bucket)
    requires ValidModel(ctx) && IsClass(ctx, c) && LinkBucket(b)
    requires DistinctProperties(ps) && forall p | p in ps :: p in Properties(ctx, c) && p.name in PropertyNames(ctx)
    ensures KeysApart(AllPropertyChanges(ctx, c, ps, b))
  {
    hide ValidModel, PropertyChanges, Properties, PropertyNames, AddsKey;
    if ps != [] {
      var front, last := ps[..|ps| - 1], ps[|ps| - 1];
      PropertiesKeysApart(ctx, c, front, b);
      PropertyKeysApart(ctx, c, last, b);
      var x, y := AllPropertyChanges(ctx, c, front, b), PropertyChanges(ctx, c, last, b);
      forall i, j | 0 <= i < |x| && 0 <= j < |y| ensures AddsKey(x[i]) !! AddsKey(y[j]) {
        assert x[i] in x && y[j] in y;
        var pm := FromProperty(ctx, c, front, b, x[i]);
        var k :| 0 <= k < |front| && front[k] == pm;
        assert ps[k].name != ps[|ps| - 1].name;
        PropertyKeysDiffer(ctx, c, pm, last, b, x[i], y[j]);
      }
      ApartConcat(x, y);
    }
  }

  /** The key column of a subclass is linked under a name no property of it has. */
  lemma KeyLinkDiffers(ctx: Deployment, c: ClassDef, x: Change, y: Change)
    requires ValidModel(ctx) && IsClass(ctx, c)
    requires x in AllPropertyChanges(ctx, c, Properties(ctx, c), CreateFKs) && y in KeyForeignKeys(ctx, c)
    ensures AddsKey(x) !! AddsKey(y)
  {
    hide AllPropertyChanges, PropertyChanges, Properties, PropertyNames, Resolvable, SuffixIsNew, WellFormed;
    hide KeyDeclaredOnce, NamesApart, KeyProperty, ForeignKeys, AddsKey;
    var pm := FromProperty(ctx, c, Properties(ctx, c), CreateFKs, x);
    LinkNewShape(ctx, c, pm, x);
    var key := KeyOfLink(ctx, c, y);
    ForeignKeysShape(ctx, c, key);
    ClassFacts(ctx, c);
    assert pm.name != key.name;
  }

  lemma ClassKeysApart(ctx: Deployment, c: ClassDef, b: Bucket)
    requires ValidModel(ctx) && IsClass(ctx, c) && LinkBucket(b)
    ensures KeysApart(ClassChanges(ctx, c, Properties(ctx, c), b))
  {
    hide ValidModel, AllPropertyChanges, Properties, KeyForeignKeys, PropertyNames, AddsKey;
    ClassFacts(ctx, c);
    PropertiesKeysApart(ctx, c, Properties(ctx, c), b);
    if b == CreateFKs {
      var x, y := AllPropertyChanges(ctx, c, Properties(ctx, c), b), KeyForeignKeys(ctx, c);
      OneKeyLink(ctx, c);
      forall i, j | 0 <= i < |x| && 0 <= j < |y| ensures AddsKey(x[i]) !! AddsKey(y[j]) {
        KeyLinkDiffers(ctx, c, x[i], y[j]);
      }
      ApartConcat(x, y);
      ApartConcat(y, x);
    }
  }

  lemma OneKeyLink(ctx: Deployment, c: ClassDef)
    ensures |KeyForeignKeys(ctx, c)| <= 1
  {
    hide ForeignKeys, KeyProperty;
    if GetsKeyColumn(ctx, c) {
      ForeignKeysShape(ctx, c, KeyProperty(ctx, c).value);
    }
  }

  lemma {:induction false} BucketKeysApart(ctx: Deployment, names: seq<string>, b: Bucket)
    requires ValidModel(ctx) && LinkBucket(b)
    requires Listing.Distinct(names) && forall n | n in names :: n in ctx.classes
    ensures KeysApart(BucketChanges(ctx, names, b))
  {
    hide ClassChanges, Properties, ValidModel, AddsKey;
    if names != [] {
      var front, n := names[..|names| - 1], names[|names| - 1];
      var c := ctx.classes[n];
      assert Grounded(ctx, n);
      BucketKeysApart(ctx, front, b);
      ClassKeysApart(ctx, c, b);
      var x, y := BucketChanges(ctx, front, b), ClassChanges(ctx, c, Properties(ctx, c), b);
      forall i, j | 0 <= i < |x| && 0 <= j < |y| ensures AddsKey(x[i]) !! AddsKey(y[j]) {
        assert x[i] in x && y[j] in y;
        var d := FromClass(ctx, front, b, x[i]);
        assert d.name != c.name;
        ClassesKeysDiffer(ctx, d, c, b, x[i], y[j]);
      }
      ApartConcat(x, y);
    }
  }

  lemma ClassesKeysDiffer(ctx: Deployment, c: ClassDef, d: ClassDef, b: Bucket, x: Change, y: Change)
    requires ValidModel(ctx) && IsClass(ctx, c) && IsClass(ctx, d) && c.name != d.name
    requires x in ClassChanges(ctx, c, Properties(ctx, c), b) && y in ClassChanges(ctx, d, Properties(ctx, d), b)
    ensures AddsKey(x) !! AddsKey(y)
  {
    hide ClassChanges, Properties, PropertyNames, Resolvable, SuffixIsNew, WellFormed, KeyDeclaredOnce, KeyNamesApart;
    ClassFacts(ctx, c);
    ClassFacts(ctx, d);
    ClassKind(ctx, c, Properties(ctx, c), b, x);
    ClassKind(ctx, d, Properties(ctx, d), b, y);
    assert x.table != y.table;
  }

  lemma PartKeysApart(ctx: Deployment, b: Bucket)
    requires ValidModel(ctx) && LinkBucket(b)
    ensures KeysApart(Bucketed(ctx, b))
  {
    hide BucketChanges, ValidModel, AddsKey;
    BucketKeysApart(ctx, ctx.order, b);
  }

  // From one stage to the next.

  lemma KeysByMember(s: seq<Change>, k: (string, string))
    ensures DroppingKey(s, k) <==> exists ch :: ch in s && k in DropsKey(ch)
    ensures AddingKey(s, k) <==> exists ch :: ch in s && k in AddsKey(ch)
  {
    hide DropsKey, AddsKey;
    if DroppingKey(s, k) {
      var i :| 0 <= i < |s| && k in DropsKey(s[i]);
      assert s[i] in s;
    }
    if AddingKey(s, k) {
      var i :| 0 <= i < |s| && k in AddsKey(s[i]);
      assert s[i] in s;
    }
  }

  lemma OtherKinds(ctx: Deployment, b: Bucket, k: (string, string))
    ensures !DroppingKey(Bucketed(ctx, b), k)
    ensures !LinkBucket(b) ==> !AddingKey(Bucketed(ctx, b), k)
  {
    hide BucketChanges;
    var s := Bucketed(ctx, b);
    forall i | 0 <= i < |s| ensures DropsKey(s[i]) == {} && (!LinkBucket(b) ==> AddsKey(s[i]) == {}) {
      BucketKind(ctx, b, s[i]);
    }
  }

  lemma DropsAddNothing(ctx: Deployment, parts: seq<seq<Change>>, k: (string, string))
    requires Emission(ctx, parts)
    ensures !AddingKey(parts[0], k)
  {
  }

  lemma LinkParts(i: nat)
    requires i < 20
    ensures Emitted()[i] == CreateFKs <==> i == 9
    ensures Emitted()[i] == CreateRelFKs <==> i == 19
  {
  }

  lemma SameKeys(ctx: Deployment, parts: seq<seq<Change>>, i: nat, k: (string, string))
    requires Emission(ctx, parts) && 1 <= i < 20
    ensures DroppingKey(parts[i], k) <==> DroppingKey(Bucketed(ctx, Emitted()[i]), k)
    ensures AddingKey(parts[i], k) <==> AddingKey(Bucketed(ctx, Emitted()[i]), k)
  {
    hide Emission, Emitted, Bucketed, DropsKey, AddsKey, AddingKey, DroppingKey;
    EmissionCount(ctx, parts);
    PartMembers(ctx, parts, i);
    KeysByMember(parts[i], k);
    KeysByMember(Bucketed(ctx, Emitted()[i]), k);
  }

  /** What each part does to the foreign keys. */
  lemma PartKeys(ctx: Deployment, parts: seq<seq<Change>>, i: nat, k: (string, string))
    requires ValidModel(ctx) && Emission(ctx, parts) && i < 20
    ensures i > 0 ==> !DroppingKey(parts[i], k)
    ensures AddingKey(parts[i], k) <==> (i == 9 && ClassKeyMade(ctx, k)) || (i == 19 && RelationKeyMade(ctx, k))
  {
    hide ValidModel, Emission, Emitted, Bucketed, ClassKeyMade, RelationKeyMade, AddingKey, DroppingKey;
    if i == 0 {
      DropsAddNothing(ctx, parts, k);
    } else {
      EmissionCount(ctx, parts);
      SameKeys(ctx, parts, i, k);
      OtherKinds(ctx, Emitted()[i], k);
      LinkParts(i);
      ClassKeysExact(ctx, k);
      RelationKeysExact(ctx, k);
    }
  }

  /** A part that runs through leads to the next stage. */
  lemma KeyStep(ctx: Deployment, parts: seq<seq<Change>>, i: nat, engine: Engine, db: Schema)
    requires ValidModel(ctx) && Emission(ctx, parts) && i < 20 && WellFormed(db) && KeysReached(ctx, parts[0], i, db)
    requires Run(engine, db, parts[i]).Some?
    ensures KeysReached(ctx, parts[0], i + 1, Run(engine, db, parts[i]).value)
  {
    hide ValidModel, Emission, Run, DroppingKey, AddingKey, ClassKeyMade, RelationKeyMade, KeyNames, WellFormed;
    EmissionCount(ctx, parts);
    forall k ensures i > 0 ==> !DroppingKey(parts[i], k)
      ensures AddingKey(parts[i], k) <==> (i == 9 && ClassKeyMade(ctx, k)) || (i == 19 && RelationKeyMade(ctx, k)) {
      PartKeys(ctx, parts, i, k);
    }
    RunForeignKeys(engine, db, parts[i]);
  }

  // Names that are taken.

  /** No key the plan makes has a namesake that outlives the drops. */
  ghost predicate KeysReady(ctx: Deployment, drops: seq<Change>) {
    forall k | ClassKeyMade(ctx, k) || RelationKeyMade(ctx, k) :: k in KeyNames(ctx.db) ==> DroppingKey(drops, k)
  }

  /** A key is made where its name is free. */
  lemma MadeKeyIsNew(ctx: Deployment, drops: seq<Change>, i: nat, ch: Change)
    requires ValidModel(ctx) && KeysReady(ctx, drops) && 1 <= i < 20 && ch in Bucketed(ctx, Emitted()[i])
    ensures forall k | k in AddsKey(ch) :: !HasKey(ctx, drops, i, k)
  {
    hide ValidModel, Bucketed, ClassKeyMade, RelationKeyMade, DroppingKey, AddsKey, KeyNames;
    var b := Emitted()[i];
    forall k | k in AddsKey(ch) ensures !HasKey(ctx, drops, i, k) {
      KeysByMember(Bucketed(ctx, b), k);
      OtherKinds(ctx, b, k);
      if b == CreateFKs {
        ClassKeysExact(ctx, k);
      } else {
        RelationKeysExact(ctx, k);
        RelationKeysApartFromClass(ctx, k);
      }
    }
  }

  lemma RelationKeysApartFromClass(ctx: Deployment, k: (string, string))
    requires ValidModel(ctx)
    ensures !(ClassKeyMade(ctx, k) && RelationKeyMade(ctx, k))
  {
    hide Properties, PropertyNames, Resolvable, SuffixIsNew, WellFormed, KeyDeclaredOnce, KeyNamesApart;
    hide ForeignKeys, GetsColumn, GetsKeyColumn, KeyProperty, Resets, RelationKeyNames;
    if ClassKeyMade(ctx, k) && RelationKeyMade(ctx, k) {
      var d, q :| Linked(ctx, d, q) && k == LinkOf(ctx, d, q);
      var c, other :| RelationLinked(ctx, c, other, k.0) && (k.1 == RelationKeyNames(ctx, k.0).0 || k.1 == RelationKeyNames(ctx, k.0).1);
      var pm :| IsProperty(ctx, c, pm) && OwnsRelation(ctx, c, pm) && k.0 == Relation(ctx, c, pm) && other == Find(ctx, pm.itemsClass).value;
      assert k.0 == Table(ctx, d);
      ClassFacts(ctx, c);
    }
  }

  // Where the foreign keys of the schema have different names, the names tell all.

  ghost predicate DistinctKeyNames(db: Schema) {
    forall i, j | 0 <= i < j < |db.keys| :: db.keys[i].name != db.keys[j].name
  }

  /** A property or subclass key that is linked anew has no key yet on its table, or one that is dropped. */
  ghost predicate KeysFree(ctx: Deployment) {
    forall c, pm {:trigger Linked(ctx, c, pm)} | Linked(ctx, c, pm) ::
      LinkOf(ctx, c, pm) in KeyNames(ctx.db) ==> LinkOf(ctx, c, pm).1 in AllDrops(ctx, ctx.order)
  }

  /** An existing key is dropped if and only if its name has to go. */
  lemma DroppedByName(ctx: Deployment, drops: seq<Change>, k: (string, string))
    requires DropList(ctx, drops) && DistinctKeyNames(ctx.db) && k in KeyNames(ctx.db)
    ensures DroppingKey(drops, k) <==> k.1 in AllDrops(ctx, ctx.order)
  {
    hide AllDrops;
    var db := ctx.db;
    var i :| 0 <= i < |db.keys| && (db.keys[i].table, db.keys[i].name) == k;
    if k.1 in AllDrops(ctx, ctx.order) {
      var j :| 0 <= j < |drops| && drops[j].DropForeignKey? && drops[j].name == k.1;
      assert DropsExisting(ctx, drops[j]);
      var l :| 0 <= l < |db.keys| && db.keys[l].name == drops[j].name && db.keys[l].table == drops[j].table;
      assert i == l;
      assert k in DropsKey(drops[j]);
    }
  }

  lemma {:induction false} DropsOfProperty(ctx: Deployment, c: ClassDef, ps: seq<PropertyMeta>, pm: PropertyMeta)
    requires pm in ps
    ensures PropertyDrops(ctx, c, pm) <= ClassDrops(ctx, c, ps)
  {
    hide PropertyDrops;
    var front, last := ps[..|ps| - 1], ps[|ps| - 1];
    if last != pm {
      assert ps == front + [last];
      DropsOfProperty(ctx, c, front, pm);
    }
  }

  lemma {:induction false} DropsOfClass(ctx: Deployment, names: seq<string>, c: ClassDef)
    requires forall n | n in names :: n in ctx.classes
    requires IsClass(ctx, c) && c.name in names
    ensures ClassDrops(ctx, c, Properties(ctx, c)) <= AllDrops(ctx, names)
  {
    hide ClassDrops, Properties;
    var front, n := names[..|names| - 1], names[|names| - 1];
    if n != c.name {
      assert names == front + [n];
      DropsOfClass(ctx, front, c);
    }
  }

  lemma PropertyDropsAll(ctx: Deployment, c: ClassDef, pm: PropertyMeta)
    requires IsProperty(ctx, c, pm)
    ensures PropertyDrops(ctx, c, pm) <= AllDrops(ctx, ctx.order)
  {
    hide PropertyDrops, ClassDrops, AllDrops, Properties;
    DropsOfProperty(ctx, c, Properties(ctx, c), pm);
    DropsOfClass(ctx, ctx.order, c);
  }

  /** The keys of a relation table whose keys are made anew all go. */
  lemma ResetDropsKeys(ctx: Deployment, k: (string, string))
    requires WellFormed(ctx.db) && RelationKeyMade(ctx, k) && k in KeyNames(ctx.db)
    ensures k.1 in AllDrops(ctx, ctx.order)
  {
    hide Properties, Resets, SituationOf, RelationKeyNames, AllDrops, DropsExportedKeys, ExportedKeys;
    var c, other :| RelationLinked(ctx, c, other, k.0) && (k.1 == RelationKeyNames(ctx, k.0).0 || k.1 == RelationKeyNames(ctx, k.0).1);
    var pm :| IsProperty(ctx, c, pm) && OwnsRelation(ctx, c, pm) && k.0 == Relation(ctx, c, pm) && other == Find(ctx, pm.itemsClass).value;
    assert k.1 in ImportedKeys(ctx, k.0);
    PropertyDropsAll(ctx, c, pm);
  }

  /** Told by names, the keys the plan makes are free if and only if those of class tables are. */
  lemma KeysReadyByName(ctx: Deployment, drops: seq<Change>)
    requires WellFormed(ctx.db) && DropList(ctx, drops) && DistinctKeyNames(ctx.db)
    ensures KeysReady(ctx, drops) <==> KeysFree(ctx)
  {
    hide WellFormed, DropList, DistinctKeyNames, AllDrops, Linked, RelationKeyMade, DroppingKey, KeyNames;
    forall k | k in KeyNames(ctx.db) ensures DroppingKey(drops, k) <==> k.1 in AllDrops(ctx, ctx.order) {
      DroppedByName(ctx, drops, k);
    }
    forall k | RelationKeyMade(ctx, k) && k in KeyNames(ctx.db) ensures k.1 in AllDrops(ctx, ctx.order) {
      ResetDropsKeys(ctx, k);
    }
    if KeysReady(ctx, drops) {
      forall c, pm | Linked(ctx, c, pm) && LinkOf(ctx, c, pm) in KeyNames(ctx.db) ensures LinkOf(ctx, c, pm).1 in AllDrops(ctx, ctx.order) {
        assert ClassKeyMade(ctx, LinkOf(ctx, c, pm));
      }
    }
  }

  /** A key is called after one property of one class. */
  lemma LinkedBy(ctx: Deployment, c: ClassDef, pm: PropertyMeta)
    requires ValidModel(ctx) && IsClass(ctx, c) && (pm in Properties(ctx, c) || (!IsRoot(ctx, c) && KeyProperty(ctx, c) == Some(pm)))
    ensures ClassKeyMade(ctx, LinkOf(ctx, c, pm)) <==> Linked(ctx, c, pm)
  {
    hide ValidModel, Linked;
    if ClassKeyMade(ctx, LinkOf(ctx, c, pm)) {
      var d, q :| Linked(ctx, d, q) && LinkOf(ctx, c, pm) == LinkOf(ctx, d, q);
      SameLink(ctx, c, pm, d, q);
    }
  }

  lemma SameLink(ctx: Deployment, c: ClassDef, p: PropertyMeta, d: ClassDef, q: PropertyMeta)
    requires ValidModel(ctx) && IsClass(ctx, c) && (p in Properties(ctx, c) || (!IsRoot(ctx, c) && KeyProperty(ctx, c) == Some(p)))
    requires Linked(ctx, d, q) && LinkOf(ctx, c, p) == LinkOf(ctx, d, q)
    ensures c == d && p == q
  {
    hide Properties, PropertyNames, Resolvable, SuffixIsNew, WellFormed, KeyDeclaredOnce, GetsColumn;
    hide KeyProperty, ForeignKeys;
    ClassFacts(ctx, c);
    assert Table(ctx, c) == Table(ctx, d);
    assert p.name == q.name;
    var ps := Properties(ctx, c);
    if p in ps && q in ps {
      var i :| 0 <= i < |ps| && ps[i] == p;
      var j :| 0 <= j < |ps| && ps[j] == q;
    }
  }
}
