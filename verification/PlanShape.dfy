/** What the changes of a plan look like: which class and property each one comes from, and
    that the changes of one bucket do not get in each other's way. Here is also what makes a
    model valid against an existing schema, and what follows from it for the properties of
    one class: keys and discriminator are declared once, names do not collide, and the
    suffix of renamed columns is new. */
module PlanShape {
  import opened PropertyTypes
  import opened Database
  import opened DeployPlan
  import opened ModelDeploying

  predicate IsClass(ctx: Deployment, c: ClassDef) {
    c.name in ctx.classes && ctx.classes[c.name] == c
  }

  predicate IsProperty(ctx: Deployment, c: ClassDef, pm: PropertyMeta) {
    IsClass(ctx, c) && pm in Properties(ctx, c)
  }

  /** A change of a bucket comes from a class. */
  lemma {:induction false} FromClass(ctx: Deployment, names: seq<string>, b: Bucket, ch: Change) returns (c: ClassDef)
    requires forall n | n in names :: n in ctx.classes
    requires ch in BucketChanges(ctx, names, b)
    ensures IsClass(ctx, c) && c.name in names && ch in ClassChanges(ctx, c, Properties(ctx, c), b)
  {
    var front, n := names[..|names| - 1], names[|names| - 1];
    assert Grounded(ctx, n);
    if ch in BucketChanges(ctx, front, b) {
      c := FromClass(ctx, front, b, ch);
    } else {
      c := ctx.classes[n];
    }
  }

  lemma {:induction false} ToBucket(ctx: Deployment, names: seq<string>, b: Bucket, c: ClassDef, ch: Change)
    requires forall n | n in names :: n in ctx.classes
    requires IsClass(ctx, c) && c.name in names && ch in ClassChanges(ctx, c, Properties(ctx, c), b)
    ensures ch in BucketChanges(ctx, names, b)
  {
    var front, n := names[..|names| - 1], names[|names| - 1];
    if n != c.name {
      assert names == front + [n];
      ToBucket(ctx, front, b, c, ch);
    }
  }

  lemma {:induction false} FromProperty(ctx: Deployment, c: ClassDef, ps: seq<PropertyMeta>, b: Bucket, ch: Change) returns (pm: PropertyMeta)
    requires ch in AllPropertyChanges(ctx, c, ps, b)
    ensures pm in ps && ch in PropertyChanges(ctx, c, pm, b)
  {
    var front, last := ps[..|ps| - 1], ps[|ps| - 1];
    if ch in AllPropertyChanges(ctx, c, front, b) {
      pm := FromProperty(ctx, c, front, b, ch);
    } else {
      pm := last;
    }
  }

  lemma {:induction false} ToProperties(ctx: Deployment, c: ClassDef, ps: seq<PropertyMeta>, b: Bucket, pm: PropertyMeta, ch: Change)
    requires pm in ps && ch in PropertyChanges(ctx, c, pm, b)
    ensures ch in AllPropertyChanges(ctx, c, ps, b)
  {
    var front, last := ps[..|ps| - 1], ps[|ps| - 1];
    if last != pm {
      assert ps == front + [last];
      ToProperties(ctx, c, front, b, pm, ch);
    }
  }

  /** The buckets that hold just what the properties put there. */
  predicate PropertyBucket(b: Bucket) {
    b !in {CreateTables, AddedColumns, DataMigrate, CreateFKs}
  }

  lemma FromBucket(ctx: Deployment, b: Bucket, ch: Change) returns (c: ClassDef, pm: PropertyMeta)
    requires PropertyBucket(b) && ch in BucketChanges(ctx, ctx.order, b)
    ensures IsProperty(ctx, c, pm) && ch in PropertyChanges(ctx, c, pm, b)
  {
    c := FromClass(ctx, ctx.order, b, ch);
    pm := FromProperty(ctx, c, Properties(ctx, c), b, ch);
  }

  lemma IntoBucket(ctx: Deployment, b: Bucket, c: ClassDef, pm: PropertyMeta, ch: Change)
    requires PropertyBucket(b) && IsProperty(ctx, c, pm) && ch in PropertyChanges(ctx, c, pm, b)
    ensures ch in BucketChanges(ctx, ctx.order, b)
  {
    ToProperties(ctx, c, Properties(ctx, c), b, pm, ch);
    ToBucket(ctx, ctx.order, b, c, ch);
  }

  lemma {:induction false} FromColumns(ctx: Deployment, c: ClassDef, ps: seq<PropertyMeta>, col: NewColumn) returns (pm: PropertyMeta)
    requires col in AllColumns(ctx, c, ps)
    ensures pm in ps && GetsColumn(ctx, c, pm) && col == NewColumnOf(ctx, pm, NewName(ctx, c, pm))
  {
    var front, last := ps[..|ps| - 1], ps[|ps| - 1];
    if col in AllColumns(ctx, c, front) {
      pm := FromColumns(ctx, c, front, col);
    } else {
      pm := last;
    }
  }

  lemma {:induction false} ToColumns(ctx: Deployment, c: ClassDef, ps: seq<PropertyMeta>, pm: PropertyMeta)
    requires pm in ps && GetsColumn(ctx, c, pm)
    ensures NewColumnOf(ctx, pm, NewName(ctx, c, pm)) in AllColumns(ctx, c, ps)
  {
    var front, last := ps[..|ps| - 1], ps[|ps| - 1];
    if last != pm {
      assert ps == front + [last];
      ToColumns(ctx, c, front, pm);
    }
  }

  lemma {:induction false} FromCopies(ctx: Deployment, c: ClassDef, ps: seq<PropertyMeta>, cp: Copy) returns (pm: PropertyMeta)
    requires cp in AllCopies(ctx, c, ps)
    ensures pm in ps && cp in PropertyCopies(ctx, c, pm)
  {
    var front, last := ps[..|ps| - 1], ps[|ps| - 1];
    if cp in AllCopies(ctx, c, front) {
      pm := FromCopies(ctx, c, front, cp);
    } else {
      pm := last;
    }
  }

  lemma {:induction false} ToCopies(ctx: Deployment, c: ClassDef, ps: seq<PropertyMeta>, pm: PropertyMeta, cp: Copy)
    requires pm in ps && cp in PropertyCopies(ctx, c, pm)
    ensures cp in AllCopies(ctx, c, ps)
  {
    var front, last := ps[..|ps| - 1], ps[|ps| - 1];
    if last != pm {
      assert ps == front + [last];
      ToCopies(ctx, c, front, pm, cp);
    }
  }

  lemma NameOfColumn(cs: seq<NewColumn>, name: string)
    ensures name in Names(cs) <==> exists col :: col in cs && col.name == name
  {
    if name in Names(cs) {
      var i :| 0 <= i < |cs| && cs[i].name == name;
      assert cs[i] in cs;
    }
  }

  // Validity of a model against an existing schema.

  /** The root key is a column of the root, not called like the discriminator, and neither of them is
      declared by a subclass. A root may declare a property called like the discriminator, which
      the discriminator then replaces. */
  ghost predicate KeyDeclaredOnce(ctx: Deployment, c: ClassDef) {
    && (KeyProperty(ctx, c).Some? ==> KeyProperty(ctx, c).value.kind != COLLECTION)
    && (!IsRoot(ctx, c) ==> !HasProperty(c.properties, Root(ctx, c).key))
    && (ctx.settings.useDiscriminator ==> Root(ctx, c).key != ctx.settings.discriminator)
    && (ctx.settings.useDiscriminator && !IsRoot(ctx, c) ==> !HasProperty(c.properties, ctx.settings.discriminator))
  }

  /** The suffix of renamed columns is new: no existing or planned name ends in it. */
  ghost predicate SuffixIsNew(ctx: Deployment) {
    forall k {:trigger ColRef(k.table, Saved(ctx, k.column))} | k in ctx.db.columns ::
      && ColRef(k.table, Saved(ctx, k.column)) !in ctx.db.columns
      && (forall n | n in PropertyNames(ctx) :: ctx.settings.naming.column(n) != Saved(ctx, k.column))
      && Saved(ctx, k.column) != ctx.settings.discriminator
      && Saved(ctx, k.column) != "master" && Saved(ctx, k.column) != "detail"
  }

  /** The names of the foreign keys of one class differ, and so do those of the two sides of a relation. */
  ghost predicate KeyNamesApart(ctx: Deployment) {
    var n, names := ctx.settings.naming, PropertyNames(ctx);
    && (forall a, b, d {:trigger n.foreignKey(a, b), n.foreignKey(a, d)} |
          a in ctx.classes && b in names && d in names && n.foreignKey(a, b) == n.foreignKey(a, d) :: b == d)
    && (forall a, b {:trigger n.relation(a, b)} | a in ctx.classes && b in names ::
          n.foreignKey(n.relation(a, b), "master") != n.foreignKey(n.relation(a, b), "detail"))
  }

  /** A reference to a class outside the model does not refer to a table of the model. */
  ghost predicate OutsidersApart(ctx: Deployment) {
    var n := ctx.settings.naming;
    forall c, pm, d {:trigger IsProperty(ctx, c, pm), n.table(d)} |
      IsProperty(ctx, c, pm) && pm.kind == REFERENCE && pm.refClass !in ctx.classes && d in ctx.classes :: n.table(pm.refClass) != n.table(d)
  }

  /** The foreign keys of the schema refer to columns that are there. */
  ghost predicate KeysResolve(db: Schema) {
    forall i | 0 <= i < |db.keys| :: ColRef(db.keys[i].refTable, db.keys[i].refColumn) in db.columns
  }

  ghost predicate ValidModel(ctx: Deployment) {
    && WellFormed(ctx.db) && KeysResolve(ctx.db)
    && Resolvable(ctx)
    && NamesApart(ctx) && KeyNamesApart(ctx) && OutsidersApart(ctx)
    && (forall n | n in PropertyNames(ctx) :: ctx.settings.naming.column(n) != ctx.settings.discriminator)
    && SuffixIsNew(ctx)
    && forall c {:trigger KeyDeclaredOnce(ctx, c)} | IsClass(ctx, c) :: KeyDeclaredOnce(ctx, c)
  }

  lemma ClassFacts(ctx: Deployment, c: ClassDef)
    requires ValidModel(ctx) && IsClass(ctx, c)
    ensures KeyProperty(ctx, c).Some? && KeyProperty(ctx, c).value.name == Root(ctx, c).key && KeyProperty(ctx, c).value.kind != COLLECTION
    ensures KeyProperty(ctx, c).value.name in PropertyNames(ctx) && forall p | p in Properties(ctx, c) :: p.name in PropertyNames(ctx)
    ensures DistinctProperties(Properties(ctx, c)) && ReferencesResolve(ctx, Properties(ctx, c))
    ensures IsClass(ctx, Root(ctx, c)) && IsRoot(ctx, Root(ctx, c))
    ensures IsRoot(ctx, c) ==> KeyProperty(ctx, c).value in Properties(ctx, c)
    ensures ctx.settings.useDiscriminator ==> KeyProperty(ctx, c).value.name != ctx.settings.discriminator
    ensures forall p | p in Properties(ctx, c) ::
              p == DiscriminatorProperty(ctx.settings) || (p in c.properties && (ctx.settings.useDiscriminator ==> p.name != ctx.settings.discriminator))
    ensures forall p | p in Properties(ctx, c) && p.name == ctx.settings.discriminator && ctx.settings.useDiscriminator ::
              IsRoot(ctx, c) && p == DiscriminatorProperty(ctx.settings)
    ensures forall p | p in Properties(ctx, c) && IsKey(ctx, c, p.name) :: IsRoot(ctx, c) && p == KeyProperty(ctx, c).value
  {
    assert KeyDeclaredOnce(ctx, c) && ResolvableClass(ctx, ctx.classes[c.name]);
    PropertiesFacts(ctx, c);
    RootFacts(ctx, c);
    var r := Root(ctx, c);
    assert KeyDeclaredOnce(ctx, r);
    FindFacts(r.properties, r.key);
    forall p | p in Properties(ctx, c)
      ensures p == DiscriminatorProperty(ctx.settings) || (p in c.properties && (ctx.settings.useDiscriminator ==> p.name != ctx.settings.discriminator))
    {
      if p != DiscriminatorProperty(ctx.settings) {
        var i :| 0 <= i < |c.properties| && c.properties[i] == p;
      }
    }
    var key := KeyProperty(ctx, c).value;
    PropertiesNamed(ctx, c);
    NamedInModel(ctx, r.name, key);
    forall p | p in Properties(ctx, c) && IsKey(ctx, c, p.name) ensures IsRoot(ctx, c) && p == key {
      if p in c.properties {
        var i :| 0 <= i < |c.properties| && c.properties[i] == p;
        assert !IsRoot(ctx, c) ==> HasProperty(c.properties, r.key);
      }
    }
  }
}
