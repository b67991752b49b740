/** The flattened property index of an item, and the property names the deployer flattens:
    two more walks over the class graph, which agree with the resolver. */
module ItemProperties {
  import opened Wrappers
  import opened ClassMetas
  import Text

  type Index = map<string, Prop>

  function Nested(prefix: string, name: string): string {
    prefix + "$" + name
  }

  function PutNested(m: Index, prefix: string, ps: seq<Prop>): Index {
    if ps == [] then m else PutNested(m, prefix, ps[..|ps| - 1])[Nested(prefix, ps[|ps| - 1].name) := ps[|ps| - 1]]
  }

  /** The properties of a struct and of its ancestors, put under the struct property's name. */
  function PutStruct(g: Model, m: Index, prefix: string, s: string): Index
    decreases Rank(g, s)
  {
    if s !in g.classes then m
    else
      var own := PutNested(m, prefix, g.classes[s].properties);
      if HasAncestor(g, s) then
        UpIsLower(g, s);
        PutStruct(g, own, prefix, g.classes[s].ancestor)
      else own
  }

  /** initProperty. */
  function PutProperty(g: Model, m: Index, p: Prop): Index {
    if p.kind.Struct? then PutStruct(g, m, p.name, p.kind.cls) else m[p.name := p]
  }

  function PutProperties(g: Model, m: Index, ps: seq<Prop>): Index {
    if ps == [] then m else PutProperty(g, PutProperties(g, m, ps[..|ps| - 1]), ps[|ps| - 1])
  }

  /** initClassProps: the class first, then its ancestors, over what is there. */
  function PutClass(g: Model, m: Index, c: string): Index
    decreases Rank(g, c)
  {
    if c !in g.classes then m
    else
      var own := PutProperties(g, m, g.classes[c].properties);
      if HasAncestor(g, c) then
        UpIsLower(g, c);
        PutClass(g, own, g.classes[c].ancestor)
      else own
  }

  /** An item's property map, filled once. */
  class Item {
    const g: Model
    const itemClass: string
    var properties: Option<Index>

    constructor (g: Model, itemClass: string)
      ensures this.g == g && this.itemClass == itemClass && properties == None
    {
      this.g := g;
      this.itemClass := itemClass;
      properties := None;
    }

    method InitProperty(m: Index, p: Prop) returns (r: Index)
      ensures r == PutProperty(g, m, p)
    {
      r := m;
      if p.kind.Struct? {
        var sm := p.kind.cls;
        while sm in g.classes
          invariant PutStruct(g, r, p.name, sm) == PutStruct(g, m, p.name, p.kind.cls)
          decreases Rank(g, sm)
        {
          var ps := g.classes[sm].properties;
          ghost var before := r;
          for i := 0 to |ps|
            invariant r == PutNested(before, p.name, ps[..i])
          {
            assert ps[..i + 1][..i] == ps[..i];
            r := r[Nested(p.name, ps[i].name) := ps[i]];
          }
          assert ps[..|ps|] == ps;
          if g.classes[sm].ancestor in g.classes {
            UpIsLower(g, sm);
            sm := g.classes[sm].ancestor;
          } else {
            return;
          }
        }
      } else {
        r := r[p.name := p];
      }
    }

    method InitClassProps(m: Index, c: string) returns (r: Index)
      requires c in g.classes
      ensures r == PutClass(g, m, c)
      decreases Rank(g, c)
    {
      r := m;
      var ps := g.classes[c].properties;
      for i := 0 to |ps|
        invariant r == PutProperties(g, m, ps[..i])
      {
        assert ps[..i + 1][..i] == ps[..i];
        r := InitProperty(r, ps[i]);
      }
      assert ps[..|ps|] == ps;
      if g.classes[c].ancestor in g.classes {
        UpIsLower(g, c);
        r := InitClassProps(r, g.classes[c].ancestor);
      }
    }

    /** getProperties. */
    method GetProperties() returns (r: Index)
      requires itemClass in g.classes
      modifies this
      ensures old(properties).None? ==> r == PutClass(g, map[], itemClass)
      ensures old(properties).Some? ==> r == old(properties).value
      ensures properties == Some(r)
    {
      if properties.None? {
        var all := InitClassProps(map[], itemClass);
        properties := Some(all);
      }
      r := properties.value;
    }
  }

  // What a key of the index stands for.

  /** What has been put under a key: p if there is one, or what was there before. */
  ghost predicate Holds(before: Index, after: Index, k: string, p: Option<Prop>) {
    if p.Some? then k in after && after[k] == p.value
    else (k in after <==> k in before) && (k in after ==> after[k] == before[k])
  }

  lemma NestedSplits(prefix: string, name: string)
    requires Plain(prefix)
    ensures var k := Nested(prefix, name); var i := Text.IndexOf(k, '$');
            i == |prefix| && k[..i] == prefix && k[i + 1..] == name
  {
    Splits(prefix, '$', name);
    assert Nested(prefix, name) == prefix + ['$'] + name;
  }

  /** The part of a key behind a prefix. */
  function Behind(prefix: string, k: string): Option<string> {
    var i := Text.IndexOf(k, '$');
    if i >= 0 && k[..i] == prefix then Some(k[i + 1..]) else None
  }

  lemma BehindNested(prefix: string, k: string, name: string)
    requires Plain(prefix)
    ensures k == Nested(prefix, name) <==> Behind(prefix, k) == Some(name)
  {
    hide Text.IndexOf;
    if k == Nested(prefix, name) {
      NestedSplits(prefix, name);
    }
    if Behind(prefix, k) == Some(name) {
      var i := Text.IndexOf(k, '$');
      assert k == k[..i] + [k[i]] + k[i + 1..];
      assert Nested(prefix, name) == prefix + ['$'] + name;
    }
  }

  function FindBehind(ps: seq<Prop>, prefix: string, k: string): Option<Prop> {
    if Behind(prefix, k).Some? then Find(ps, Behind(prefix, k).value) else None
  }

  lemma {:induction false} PutNestedAt(m: Index, prefix: string, ps: seq<Prop>, k: string)
    requires Plain(prefix)
    ensures Holds(m, PutNested(m, prefix, ps), k, FindBehind(ps, prefix, k))
  {
    hide Behind, Nested;
    if ps != [] {
      PutNestedAt(m, prefix, ps[..|ps| - 1], k);
      BehindNested(prefix, k, ps[|ps| - 1].name);
    }
  }

  /** The topmost property of that very name on the way up from c. */
  function TopUp(g: Model, c: string, name: string): Option<Prop>
    decreases Rank(g, c)
  {
    if c !in g.classes then None
    else
      var own := Find(g.classes[c].properties, name);
      if HasAncestor(g, c) then
        UpIsLower(g, c);
        var up := TopUp(g, g.classes[c].ancestor, name);
        if up.Some? then up else own
      else own
  }

  /** Later writes win, so a struct chain leaves the topmost declarations. */
  lemma {:induction false} PutStructAt(g: Model, m: Index, prefix: string, s: string, k: string)
    requires Plain(prefix)
    ensures Holds(m, PutStruct(g, m, prefix, s), k, if Behind(prefix, k).Some? then TopUp(g, s, Behind(prefix, k).value) else None)
    decreases Rank(g, s)
  {
    hide Behind;
    if s in g.classes {
      PutNestedAt(m, prefix, g.classes[s].properties, k);
      if HasAncestor(g, s) {
        UpIsLower(g, s);
        PutStructAt(g, PutNested(m, prefix, g.classes[s].properties), prefix, g.classes[s].ancestor, k);
      }
    }
  }

  /** What one property puts under a key. */
  function Puts(g: Model, p: Prop, k: string): Option<Prop> {
    if p.kind.Struct? then (if Behind(p.name, k).Some? then TopUp(g, p.kind.cls, Behind(p.name, k).value) else None)
    else if k == p.name then Some(p) else None
  }

  lemma PutPropertyAt(g: Model, m: Index, p: Prop, k: string)
    requires Plain(p.name)
    ensures Holds(m, PutProperty(g, m, p), k, Puts(g, p, k))
  {
    if p.kind.Struct? {
      PutStructAt(g, m, p.name, p.kind.cls, k);
    }
  }

  /** The first step of a flat name. */
  function Head(k: string): string {
    var i := Text.IndexOf(k, '$');
    if i < 0 then k else k[..i]
  }

  lemma PutsNeedsHead(g: Model, p: Prop, k: string)
    requires Plain(p.name)
    ensures Puts(g, p, k).Some? ==> p.name == Head(k)
  {
    var i := Text.IndexOf(p.name, '$');
  }

  /** What the properties of one class declare under a flat name. */
  function Declared(g: Model, ps: seq<Prop>, k: string): Option<Prop> {
    var p := Find(ps, Head(k));
    if p.Some? then Puts(g, p.value, k) else None
  }

  lemma {:induction false} PutPropertiesAt(g: Model, m: Index, ps: seq<Prop>, k: string)
    requires DistinctNames(ps) && forall i | 0 <= i < |ps| :: Plain(ps[i].name)
    ensures Holds(m, PutProperties(g, m, ps), k, Declared(g, ps, k))
  {
    hide Puts, Head, PutProperty;
    if ps != [] {
      var front, last := ps[..|ps| - 1], ps[|ps| - 1];
      PutPropertiesAt(g, m, front, k);
      PutPropertyAt(g, PutProperties(g, m, front), last, k);
      PutsNeedsHead(g, last, k);
      FindFacts(front, Head(k));
    }
  }

  /** The topmost declaration of a flat name on the way up from c. */
  function Topmost(g: Model, c: string, k: string): Option<Prop>
    decreases Rank(g, c)
  {
    if c !in g.classes then None
    else
      var own := Declared(g, g.classes[c].properties, k);
      if HasAncestor(g, c) then
        UpIsLower(g, c);
        var up := Topmost(g, g.classes[c].ancestor, k);
        if up.Some? then up else own
      else own
  }

  /** The index over m holds the topmost declaration of every flat name, and nothing else is
      touched. */
  lemma {:induction false} IndexIsTopmost(g: Model, m: Index, c: string, k: string)
    requires WellNamed(g)
    ensures Holds(m, PutClass(g, m, c), k, Topmost(g, c, k))
    decreases Rank(g, c)
  {
    hide Declared, PutProperties;
    if c in g.classes {
      var ps := g.classes[c].properties;
      assert NamedClass(g, c);
      PutPropertiesAt(g, m, ps, k);
      if HasAncestor(g, c) {
        UpIsLower(g, c);
        IndexIsTopmost(g, PutProperties(g, m, ps), g.classes[c].ancestor, k);
      }
    }
  }

  // What the resolver finds under a flat name.

  /** The nearest declaration of a name as a struct on the way up from c. */
  function NearStruct(g: Model, c: string, a: string): Option<Prop>
    decreases Rank(g, c)
  {
    if c !in g.classes then None
    else
      var own := Find(g.classes[c].properties, a);
      if IsStruct(g, own) then own
      else if HasAncestor(g, c) then
        UpIsLower(g, c);
        NearStruct(g, g.classes[c].ancestor, a)
      else None
  }

  /** The nearest declaration of a flat name: a$b is looked up in the nearest struct a, and
      nowhere else. */
  function Nearest(g: Model, c: string, k: string): Option<Prop> {
    var i := Text.IndexOf(k, '$');
    if i < 0 then FindUp(g, c, k)
    else
      var s := NearStruct(g, c, k[..i]);
      if s.Some? && s.value.kind.Struct? then FindUp(g, s.value.kind.cls, k[i + 1..]) else None
  }

  lemma {:induction false} NearStructIsStruct(g: Model, c: string, a: string)
    ensures var s, p := NearStruct(g, c, a), FindUp(g, c, a);
            (s.Some? ==> IsStruct(g, s)) && (IsStruct(g, p) ==> s == p)
    decreases Rank(g, c)
  {
    if HasAncestor(g, c) {
      UpIsLower(g, c);
      NearStructIsStruct(g, g.classes[c].ancestor, a);
    }
  }

  /** a$b for any model: a class in which a is no struct leaves the name to its ancestor. */
  lemma {:induction false} ResolveNearestStruct(g: Model, c: string, a: string, b: string)
    requires WellNamed(g) && Plain(a) && Plain(b)
    ensures var s := NearStruct(g, c, a);
            Resolve(g, c, a + "$" + b) == if IsStruct(g, s) then FindUp(g, s.value.kind.cls, b) else None
    decreases Rank(g, c)
  {
    hide WellNamed;
    if c in g.classes {
      var k := a + "$" + b;
      Splits(a, '$', b);
      assert a + ['$'] + b == k && '.' !in k;
      NoIndex(k);
      ResolvePlain(g, c, a);
      NearStructIsStruct(g, c, a);
      if IsStruct(g, FindUp(g, c, a)) {
        ResolvePlain(g, FindUp(g, c, a).value.kind.cls, b);
      } else {
        NoOwn(g, c, k);
        if HasAncestor(g, c) {
          UpIsLower(g, c);
          ResolveNearestStruct(g, g.classes[c].ancestor, a, b);
        }
      }
    }
  }

  lemma NoOwn(g: Model, c: string, k: string)
    requires WellNamed(g) && c in g.classes && !Plain(k)
    ensures Find(g.classes[c].properties, k).None?
  {
    assert NamedClass(g, c);
    FindFacts(g.classes[c].properties, k);
  }

  function Dollars(k: string): nat {
    if k == [] then 0 else Dollars(k[1..]) + if k[0] == '$' then 1 else 0
  }

  lemma {:induction false} NoDollars(k: string)
    ensures Dollars(k) == 0 <==> '$' !in k
  {
    if k != [] {
      NoDollars(k[1..]);
    }
  }

  lemma {:induction false} DollarsConcat(a: string, b: string)
    ensures Dollars(a + b) == Dollars(a) + Dollars(b)
  {
    if a == [] {
      assert a + b == b;
    } else {
      assert (a + b)[1..] == a[1..] + b;
      DollarsConcat(a[1..], b);
    }
  }

  lemma DollarsAround(a: string, b: string)
    requires '$' !in a
    ensures Dollars(a + "$" + b) == 1 + Dollars(b)
  {
    assert a + "$" + b == a + ("$" + b);
    assert "$" + b == ['$'] + b && ("$" + b)[1..] == b;
    DollarsConcat(a, "$" + b);
    NoDollars(a);
  }

  /** The two parts of a name with a dollar. */
  lemma FirstDollar(k: string)
    requires '.' !in k && '$' in k
    ensures var i := Text.IndexOf(k, '$');
            i >= 0 && k == k[..i] + "$" + k[i + 1..] && Plain(k[..i]) && Dollars(k) == 1 + Dollars(k[i + 1..])
    ensures var i := Text.IndexOf(k, '$'); Dollars(k) <= 1 <==> Plain(k[i + 1..])
  {
    var i := Text.IndexOf(k, '$');
    assert k == k[..i] + "$" + k[i + 1..];
    DollarsAround(k[..i], k[i + 1..]);
    NoDollars(k[i + 1..]);
  }

  /** The resolver finds the nearest declaration of a flat name. */
  lemma ResolverIsNearest(g: Model, c: string, k: string)
    requires WellNamed(g) && '.' !in k && Dollars(k) <= 1
    ensures Resolve(g, c, k) == Nearest(g, c, k)
  {
    hide WellNamed, Dollars, Resolve, FindUp, NearStruct;
    if '$' in k {
      FirstDollar(k);
      var i := Text.IndexOf(k, '$');
      ResolveNearestStruct(g, c, k[..i], k[i + 1..]);
      NearStructIsStruct(g, c, k[..i]);
    } else {
      ResolvePlain(g, c, k);
    }
  }

  // When index and resolver agree.

  lemma {:induction false} TopUpExists(g: Model, c: string, name: string)
    ensures TopUp(g, c, name).Some? <==> FindUp(g, c, name).Some?
    decreases Rank(g, c)
  {
    if HasAncestor(g, c) {
      UpIsLower(g, c);
      TopUpExists(g, g.classes[c].ancestor, name);
    }
  }

  /** What a declared flat name looks like. */
  lemma {:induction false} TopmostIsFlat(g: Model, c: string, k: string)
    requires WellNamed(g) && Topmost(g, c, k).Some?
    ensures '.' !in k && Dollars(k) <= 1 && (Dollars(k) == 0 ==> !Topmost(g, c, k).value.kind.Struct?)
    decreases Rank(g, c)
  {
    hide Dollars;
    if HasAncestor(g, c) && Topmost(g, g.classes[c].ancestor, k).Some? {
      UpIsLower(g, c);
      TopmostIsFlat(g, g.classes[c].ancestor, k);
    } else {
      DeclaredIsFlat(g, c, k);
    }
  }

  lemma DeclaredIsFlat(g: Model, c: string, k: string)
    requires WellNamed(g) && c in g.classes && Declared(g, g.classes[c].properties, k).Some?
    ensures '.' !in k && Dollars(k) <= 1 && (Dollars(k) == 0 ==> !Declared(g, g.classes[c].properties, k).value.kind.Struct?)
  {
    hide Dollars;
    assert NamedClass(g, c);
    FindFacts(g.classes[c].properties, Head(k));
    var p := Find(g.classes[c].properties, Head(k)).value;
    NoDollars(k);
    if p.kind.Struct? {
      var i := Text.IndexOf(k, '$');
      var b := k[i + 1..];
      TopUpExists(g, p.kind.cls, b);
      if !Plain(b) {
        NoSuchOwn(g, p.kind.cls, b);
      }
      assert k == k[..i] + "$" + b;
      FirstDollar(k);
    }
  }

  /** What the resolver finds, structs themselves aside, is declared. */
  lemma {:induction false} NearestIsDeclared(g: Model, c: string, k: string)
    requires WellNamed(g) && '.' !in k && Nearest(g, c, k).Some? && ('$' !in k ==> !Nearest(g, c, k).value.kind.Struct?)
    ensures Topmost(g, c, k).Some?
    decreases Rank(g, c)
  {
    hide WellNamed, TopUp, Declared;
    if c in g.classes {
      DeclaredHere(g, c, k);
      if Declared(g, g.classes[c].properties, k).None? {
        NearestIsAbove(g, c, k);
        NearestIsDeclared(g, g.classes[c].ancestor, k);
      }
    }
  }

  lemma DeclaredHere(g: Model, c: string, k: string)
    requires c in g.classes && Nearest(g, c, k).Some?
    ensures var ps := g.classes[c].properties;
            var own := Find(ps, Head(k));
            && ('$' in k && IsStruct(g, own) ==> Declared(g, ps, k).Some?)
            && ('$' !in k && own.Some? && !own.value.kind.Struct? ==> Declared(g, ps, k) == own)
  {
    var i := Text.IndexOf(k, '$');
    FindFacts(g.classes[c].properties, Head(k));
    var own := Find(g.classes[c].properties, Head(k));
    if '$' in k && IsStruct(g, own) {
      TopUpExists(g, own.value.kind.cls, k[i + 1..]);
    }
  }

  lemma NearestIsAbove(g: Model, c: string, k: string)
    requires c in g.classes && Nearest(g, c, k).Some?
    requires if '$' in k then !IsStruct(g, Find(g.classes[c].properties, Head(k))) else Find(g.classes[c].properties, k).None?
    ensures HasAncestor(g, c) && Rank(g, g.classes[c].ancestor) < Rank(g, c)
    ensures Nearest(g, g.classes[c].ancestor, k) == Nearest(g, c, k)
  {
    assert HasAncestor(g, c);
    UpIsLower(g, c);
  }

  /** The index has a name exactly if the resolver finds one of the kind that is indexed, and
      then both have the same meta. */
  ghost predicate AgreeAt(g: Model, c: string, k: string) {
    var index, r := PutClass(g, map[], c), Resolve(g, c, k);
    && (k in index <==> Dollars(k) <= 1 && r.Some? && (Dollars(k) == 0 ==> !r.value.kind.Struct?))
    && (k in index ==> r == Some(index[k]))
  }

  /** One name: the nearest declaration is the topmost. */
  lemma AgreeAtExactly(g: Model, c: string, k: string)
    requires WellNamed(g) && '.' !in k
    ensures AgreeAt(g, c, k) <==> (Topmost(g, c, k).Some? ==> Nearest(g, c, k) == Topmost(g, c, k))
  {
    hide PutClass, Topmost, Nearest, WellNamed, Dollars, Resolve;
    IndexIsTopmost(g, map[], c, k);
    NoDollars(k);
    if Topmost(g, c, k).Some? {
      TopmostIsFlat(g, c, k);
    }
    if Dollars(k) <= 1 {
      ResolverIsNearest(g, c, k);
      if Topmost(g, c, k).None? && Nearest(g, c, k).Some? && (Dollars(k) == 0 ==> !Nearest(g, c, k).value.kind.Struct?) {
        NearestIsDeclared(g, c, k);
      }
    }
  }

  /** For every well-named model and class: index and resolver agree on all dot-free names if and
      only if nearest and topmost declaration coincide for every name declared on the way up. */
  lemma AgreeExactly(g: Model, c: string)
    requires WellNamed(g)
    ensures (forall k | '.' !in k :: AgreeAt(g, c, k)) <==>
              (forall k | Topmost(g, c, k).Some? :: Nearest(g, c, k) == Topmost(g, c, k))
  {
    hide AgreeAt, Topmost, Nearest, WellNamed;
    forall k | '.' !in k
      ensures AgreeAt(g, c, k) <==> (Topmost(g, c, k).Some? ==> Nearest(g, c, k) == Topmost(g, c, k))
    {
      AgreeAtExactly(g, c, k);
    }
    forall k | Topmost(g, c, k).Some? ensures '.' !in k {
      TopmostIsFlat(g, c, k);
    }
  }

  lemma {:induction false} UnshadowedTopUp(g: Model, c: string, name: string)
    requires NoShadowing(g)
    ensures TopUp(g, c, name) == FindUp(g, c, name)
    decreases Rank(g, c)
  {
    if HasAncestor(g, c) {
      UpIsLower(g, c);
      UnshadowedTopUp(g, g.classes[c].ancestor, name);
      SameUp(g, c, name);
    }
  }

  /** Where nothing is shadowed the only declaration is both. */
  lemma {:induction false} UnshadowedCoincide(g: Model, c: string, k: string)
    requires WellNamed(g) && NoShadowing(g) && Topmost(g, c, k).Some?
    ensures Nearest(g, c, k) == Topmost(g, c, k)
    ensures FindUp(g, c, Head(k)).Some?
    decreases Rank(g, c)
  {
    hide WellNamed, NoShadowing;
    var i := Text.IndexOf(k, '$');
    FindFacts(g.classes[c].properties, Head(k));
    if HasAncestor(g, c) && Topmost(g, g.classes[c].ancestor, k).Some? {
      UpIsLower(g, c);
      UnshadowedCoincide(g, g.classes[c].ancestor, k);
      NoneBelow(g, c, Head(k));
    } else if i >= 0 {
      UnshadowedTopUp(g, Find(g.classes[c].properties, Head(k)).value.kind.cls, k[i + 1..]);
    }
  }

  lemma NoneBelow(g: Model, c: string, name: string)
    requires NoShadowing(g) && HasAncestor(g, c) && FindUp(g, g.classes[c].ancestor, name).Some?
    ensures Find(g.classes[c].properties, name).None?
  {
    FindFacts(g.classes[c].properties, name);
    assert Unshadowed(g, c);
  }

  /** Without shadowing the flattened index agrees with the resolver on every dot-free name. */
  lemma IndexAgreesWithResolver(g: Model, c: string, k: string)
    requires WellNamed(g) && NoShadowing(g) && '.' !in k
    ensures var index := PutClass(g, map[], c);
            && (k in index <==> Dollars(k) <= 1 && Resolve(g, c, k).Some? && (Dollars(k) == 0 ==> !Resolve(g, c, k).value.kind.Struct?))
            && (k in index ==> Resolve(g, c, k) == Some(index[k]))
  {
    hide PutClass, Topmost, Nearest, WellNamed, NoShadowing, Dollars, Resolve;
    AgreeAtExactly(g, c, k);
    if Topmost(g, c, k).Some? {
      UnshadowedCoincide(g, c, k);
    }
  }

  /** No key has a dot. */
  lemma KeysAreDotFree(g: Model, c: string, k: string)
    requires WellNamed(g) && k in PutClass(g, map[], c)
    ensures '.' !in k
  {
    IndexIsTopmost(g, map[], c, k);
    TopmostIsFlat(g, c, k);
  }

  /** A shadowed name on which they disagree: the index keeps the ancestor's meta, the resolver
      finds the descendant's. */
  lemma ShadowedNamesDisagree(a: Prop, b: Prop) returns (g: Model, c: string)
    requires a.name == b.name && Plain(a.name) && a != b && a.kind.Basic? && b.kind.Basic?
    ensures WellNamed(g) && c in g.classes && !AgreeAt(g, c, a.name)
    ensures a.name in PutClass(g, map[], c) && PutClass(g, map[], c)[a.name] == a && Resolve(g, c, a.name) == Some(b)
  {
    g := Graph(map["p" := ClassMeta("", false, [a]), "q" := ClassMeta("p", false, [b])], map["p" := 0, "q" := 1]);
    c := "q";
    assert Grounded(g, "p") && Grounded(g, "q");
    var h: Model := g;
    assert [b][..0] == [] && [a][..0] == [];
    assert HasAncestor(h, "q") && !HasAncestor(h, "p");
    ResolvePlain(h, "q", a.name);
    assert PutProperties(h, map[], [b]) == map[b.name := b];
    assert PutProperties(h, map[b.name := b], [a]) == map[a.name := a];
    assert PutClass(h, map[b.name := b], "p") == map[a.name := a];
  }

  // The deployer.

  /** The structs as the deployer knows them: classes marked as structs. */
  predicate IsStructClass(g: Model, s: string) {
    s in g.classes && g.classes[s].isStruct
  }

  /** The attributes of a struct and its ancestors, as far as those are structs. */
  function StructAttributes(g: Model, prefix: string, s: string): set<string>
    decreases Rank(g, s)
  {
    if !IsStructClass(g, s) then {}
    else
      var own := set i | 0 <= i < |g.classes[s].properties| :: Nested(prefix, g.classes[s].properties[i].name);
      if HasAncestor(g, s) then
        UpIsLower(g, s);
        own + StructAttributes(g, prefix, g.classes[s].ancestor)
      else own
  }

  /** The property names of one class as it is deployed. */
  function DeployedNames(g: Model, ps: seq<Prop>): set<string> {
    if ps == [] then {}
    else
      var p := ps[|ps| - 1];
      DeployedNames(g, ps[..|ps| - 1]) + if p.kind.Struct? then StructAttributes(g, p.name, p.kind.cls) else {p.name}
  }

  /** getOrderedMetas' loops over one class. */
  method FlattenClass(g: Model, ps: seq<Prop>) returns (names: set<string>)
    ensures names == DeployedNames(g, ps)
  {
    names := {};
    for i := 0 to |ps|
      invariant names == DeployedNames(g, ps[..i])
    {
      assert ps[..i + 1][..i] == ps[..i];
      if ps[i].kind.Struct? {
        var struct := ps[i].kind.cls;
        ghost var before := names;
        while IsStructClass(g, struct)
          invariant names + StructAttributes(g, ps[i].name, struct) == before + StructAttributes(g, ps[i].name, ps[i].kind.cls)
          decreases Rank(g, struct)
        {
          var own := set j | 0 <= j < |g.classes[struct].properties| :: Nested(ps[i].name, g.classes[struct].properties[j].name);
          names := names + own;
          if !HasAncestor(g, struct) {
            assert Rank(g, "") == 0 < Rank(g, struct);
            struct := "";
          } else {
            UpIsLower(g, struct);
            struct := g.classes[struct].ancestor;
          }
        }
      } else {
        names := names + {ps[i].name};
      }
    }
    assert ps[..|ps|] == ps;
  }

  /** Struct properties refer to structs, and structs descend from structs. */
  ghost predicate StructsAreStructs(g: Model) {
    && (forall c, i | c in g.classes && 0 <= i < |g.classes[c].properties| ::
          var k := g.classes[c].properties[i].kind; k.Struct? && k.cls in g.classes ==> g.classes[k.cls].isStruct)
    && (forall s | HasAncestor(g, s) && g.classes[s].isStruct :: g.classes[g.classes[s].ancestor].isStruct)
  }

  /** Some class on the way up from c has the name among its deployed names. */
  ghost predicate DeployedUp(g: Model, c: string, k: string)
    decreases Rank(g, c)
  {
    c in g.classes &&
    (k in DeployedNames(g, g.classes[c].properties) || (HasAncestor(g, c) && (UpIsLower(g, c); DeployedUp(g, g.classes[c].ancestor, k))))
  }

  lemma {:induction false} StructAttributesExact(g: Model, prefix: string, s: string, k: string)
    requires StructsAreStructs(g) && Plain(prefix) && (s in g.classes ==> g.classes[s].isStruct)
    ensures k in StructAttributes(g, prefix, s) <==> Behind(prefix, k).Some? && TopUp(g, s, Behind(prefix, k).value).Some?
    decreases Rank(g, s)
  {
    hide Behind, Nested;
    if s in g.classes {
      var ps := g.classes[s].properties;
      forall i | 0 <= i < |ps| ensures k == Nested(prefix, ps[i].name) <==> Behind(prefix, k) == Some(ps[i].name) {
        BehindNested(prefix, k, ps[i].name);
      }
      if Behind(prefix, k).Some? {
        FindFacts(ps, Behind(prefix, k).value);
      }
      if HasAncestor(g, s) {
        UpIsLower(g, s);
        StructAttributesExact(g, prefix, g.classes[s].ancestor, k);
      }
    }
  }

  lemma {:induction false} DeployedNamesExact(g: Model, ps: seq<Prop>, k: string)
    requires StructsAreStructs(g) && DistinctNames(ps)
    requires forall i | 0 <= i < |ps| ::
               Plain(ps[i].name) && (ps[i].kind.Struct? && ps[i].kind.cls in g.classes ==> g.classes[ps[i].kind.cls].isStruct)
    ensures k in DeployedNames(g, ps) <==> Declared(g, ps, k).Some?
  {
    hide Head, Behind, StructsAreStructs;
    if ps != [] {
      var front, last := ps[..|ps| - 1], ps[|ps| - 1];
      DeployedNamesExact(g, front, k);
      PutsNeedsHead(g, last, k);
      FindFacts(front, Head(k));
      if last.kind.Struct? {
        StructAttributesExact(g, last.name, last.kind.cls, k);
      }
    }
  }

  /** The keys of the index are the deployed names of the class and its ancestors together. */
  lemma IndexIsDeployed(g: Model, c: string, k: string)
    requires WellNamed(g) && StructsAreStructs(g)
    ensures k in PutClass(g, map[], c) <==> DeployedUp(g, c, k)
  {
    IndexIsTopmost(g, map[], c, k);
    TopmostIsDeployed(g, c, k);
  }

  lemma {:induction false} TopmostIsDeployed(g: Model, c: string, k: string)
    requires WellNamed(g) && StructsAreStructs(g)
    ensures Topmost(g, c, k).Some? <==> DeployedUp(g, c, k)
    decreases Rank(g, c)
  {
    hide Declared;
    if c in g.classes {
      assert NamedClass(g, c);
      DeployedNamesExact(g, g.classes[c].properties, k);
      if HasAncestor(g, c) {
        UpIsLower(g, c);
        TopmostIsDeployed(g, g.classes[c].ancestor, k);
      }
    }
  }
}
