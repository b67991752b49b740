/** The property paths the modeler offers for a class (IonEditor.getClassProperties):
    exactly those told by their steps. */
module PathEnumeration {
  import opened Wrappers
  import opened ClassMetas
  import Text

  type Captions = map<string, string>

  function Dotted(prefix: string, name: string): string {
    prefix + "." + name
  }

  lemma DottedInjective(prefix: string, a: string, b: string)
    requires Dotted(prefix, a) == Dotted(prefix, b)
    ensures a == b
  {
    assert Dotted(prefix, a)[|prefix| + 1..] == a && Dotted(prefix, b)[|prefix| + 1..] == b;
  }

  /** The entries of sub under keys, each behind a prefix. */
  function Behind(p: Prop, sub: Captions, keys: set<string>): Captions
    requires keys <= sub.Keys
  {
    assert forall j, k | j in keys && k in keys && Dotted(p.name, j) == Dotted(p.name, k) :: j == k by {
      forall j, k | j in keys && k in keys && Dotted(p.name, j) == Dotted(p.name, k) ensures j == k {
        DottedInjective(p.name, j, k);
      }
    }
    map k | k in keys :: Dotted(p.name, k) := p.caption + "." + sub[k]
  }

  function OfferNested(m: Captions, p: Prop, ps: seq<Prop>): Captions {
    if ps == [] then m
    else OfferNested(m, p, ps[..|ps| - 1])[p.name + "$" + ps[|ps| - 1].name := p.caption + "." + ps[|ps| - 1].caption]
  }

  function OfferStruct(g: Model, m: Captions, p: Prop, s: string): Captions
    decreases Rank(g, s)
  {
    if s !in g.classes then m
    else
      var own := OfferNested(m, p, g.classes[s].properties);
      if HasAncestor(g, s) then
        UpIsLower(g, s);
        OfferStruct(g, own, p, g.classes[s].ancestor)
      else own
  }

  predicate Passes(filter: Option<int>, p: Prop) {
    filter.None? || Code(p.kind) == filter.value
  }

  function StepsLeft(depth: int, level: int): nat {
    if level < depth then depth - level else 0
  }

  function OfferOne(g: Model, m: Captions, p: Prop, filter: Option<int>, depth: int, level: int): Captions
    decreases StepsLeft(depth, level), 0, 1
  {
    if !Passes(filter, p) then m
    else
      var named := m[p.name := p.caption];
      match p.kind
      case Basic(_) => named
      case Struct(s) => OfferStruct(g, named, p, s)
      case Reference(c) => OfferBehind(g, named, p, c, filter, depth, level)
      case Collection(c) => OfferBehind(g, named, p, c, filter, depth, level)
  }

  /** What lies behind a reference or a collection, as deep as the depth allows. */
  function OfferBehind(g: Model, m: Captions, p: Prop, c: string, filter: Option<int>, depth: int, level: int): Captions
    decreases StepsLeft(depth, level), 0, 0
  {
    if c in g.classes && level < depth then
      var sub := OfferClass(g, map[], c, filter, depth, level + 1);
      m + Behind(p, sub, sub.Keys)
    else m
  }

  function OfferProperties(g: Model, m: Captions, ps: seq<Prop>, filter: Option<int>, depth: int, level: int): Captions
    decreases StepsLeft(depth, level), 0, |ps| + 1
  {
    if ps == [] then m
    else OfferOne(g, OfferProperties(g, m, ps[..|ps| - 1], filter, depth, level), ps[|ps| - 1], filter, depth, level)
  }

  function OfferClass(g: Model, m: Captions, c: string, filter: Option<int>, depth: int, level: int): Captions
    decreases StepsLeft(depth, level), Rank(g, c)
  {
    if c !in g.classes then m
    else
      var own := OfferProperties(g, m, g.classes[c].properties, filter, depth, level);
      if HasAncestor(g, c) then
        UpIsLower(g, c);
        OfferClass(g, own, g.classes[c].ancestor, filter, depth, level)
      else own
  }

  /** The loop over a struct and its ancestors. */
  method AddStruct(g: Model, m: Captions, p: Prop, s: string) returns (r: Captions)
    ensures r == OfferStruct(g, m, p, s)
  {
    r := m;
    var struct := s;
    while struct in g.classes
      invariant OfferStruct(g, r, p, struct) == OfferStruct(g, m, p, s)
      decreases Rank(g, struct)
    {
      var ps := g.classes[struct].properties;
      ghost var before := r;
      for i := 0 to |ps|
        invariant r == OfferNested(before, p, ps[..i])
      {
        assert ps[..i + 1][..i] == ps[..i];
        r := r[p.name + "$" + ps[i].name := p.caption + "." + ps[i].caption];
      }
      assert ps[..|ps|] == ps;
      if HasAncestor(g, struct) {
        UpIsLower(g, struct);
        struct := g.classes[struct].ancestor;
      } else {
        return;
      }
    }
  }

  /** The loop over the entries found behind a reference or a collection. */
  method AddBehind(m: Captions, p: Prop, sub: Captions) returns (r: Captions)
    ensures r == m + Behind(p, sub, sub.Keys)
  {
    hide Behind;
    r := m;
    NothingBehind(p, sub);
    var rest := sub.Keys;
    ghost var done := {};
    while rest != {}
      invariant done + rest == sub.Keys && done !! rest
      invariant r == m + Behind(p, sub, done)
      decreases |rest|
    {
      var k :| k in rest;
      BehindOneMore(p, sub, done, k);
      MergeUpdate(m, Behind(p, sub, done), Dotted(p.name, k), p.caption + "." + sub[k]);
      r := r[Dotted(p.name, k) := p.caption + "." + sub[k]];
      rest := rest - {k};
      done := done + {k};
    }
    assert done == sub.Keys;
  }

  lemma MergeUpdate(m: Captions, b: Captions, k: string, v: string)
    ensures m + b[k := v] == (m + b)[k := v]
  {
  }

  lemma BehindOneMore(p: Prop, sub: Captions, done: set<string>, k: string)
    requires done <= sub.Keys && k in sub.Keys
    ensures Behind(p, sub, done + {k}) == Behind(p, sub, done)[Dotted(p.name, k) := p.caption + "." + sub[k]]
  {
    var a, b := Behind(p, sub, done + {k}), Behind(p, sub, done)[Dotted(p.name, k) := p.caption + "." + sub[k]];
    BehindAt(p, sub, done + {k}, k);
    forall n ensures n in a <==> n in b
      ensures n in a ==> a[n] == b[n] {
      if n in a {
        var j :| j in done + {k} && n == Dotted(p.name, j);
        BehindAt(p, sub, done + {k}, j);
        if j in done {
          BehindAt(p, sub, done, j);
        }
      }
    }
  }

  lemma BehindAt(p: Prop, sub: Captions, keys: set<string>, k: string)
    requires k in keys && keys <= sub.Keys
    ensures Dotted(p.name, k) in Behind(p, sub, keys) && Behind(p, sub, keys)[Dotted(p.name, k)] == p.caption + "." + sub[k]
  {
    var n := Dotted(p.name, k);
    assert n in Behind(p, sub, keys);
    var j :| j in keys && n == Dotted(p.name, j) && Behind(p, sub, keys)[n] == p.caption + "." + sub[j];
    DottedInjective(p.name, j, k);
  }

  lemma NothingBehind(p: Prop, sub: Captions)
    ensures Behind(p, sub, {}) == map[]
  {
  }

  /** The body of the loop over the properties. */
  method AddProperty(g: Model, m: Captions, p: Prop, filter: Option<int>, depth: int, level: int) returns (r: Captions)
    ensures r == OfferOne(g, m, p, filter, depth, level)
    decreases StepsLeft(depth, level), 0
  {
    r := m;
    if Passes(filter, p) {
      r := r[p.name := p.caption];
      if p.kind.Struct? {
        r := AddStruct(g, r, p, p.kind.cls);
      } else if !p.kind.Basic? && p.kind.cls in g.classes && level < depth {
        var sub := GetClassProperties(g, p.kind.cls, filter, depth, level + 1);
        r := AddBehind(r, p, sub);
      }
    }
  }

  method GetClassProperties(g: Model, classmeta: string, filter: Option<int>, depth: int, level: int) returns (result: Captions)
    ensures result == OfferClass(g, map[], classmeta, filter, depth, level)
    ensures var left := if level < depth then depth - level else 0;
            forall n :: (n in result <==> exists caption :: Spells(g, classmeta, filter, left, n, caption))
                     && (n in result ==> Spells(g, classmeta, filter, left, n, result[n]))
    decreases StepsLeft(depth, level), 1
  {
    hide OfferOne, Founded, WellNamed, Spells;
    forall n
      ensures var m, left := OfferClass(g, map[], classmeta, filter, depth, level), if level < depth then depth - level else 0;
              && (n in m <==> exists caption :: Spells(g, classmeta, filter, left, n, caption))
              && (n in m ==> Spells(g, classmeta, filter, left, n, m[n])) {
      OfferedExactly(g, classmeta, filter, depth, level, n);
    }
    result := map[];
    var meta := classmeta;
    while meta in g.classes
      invariant OfferClass(g, result, meta, filter, depth, level) == OfferClass(g, map[], classmeta, filter, depth, level)
      decreases Rank(g, meta)
    {
      var ps := g.classes[meta].properties;
      ghost var before := result;
      for i := 0 to |ps|
        invariant result == OfferProperties(g, before, ps[..i], filter, depth, level)
      {
        assert ps[..i + 1][..i] == ps[..i];
        result := AddProperty(g, result, ps[i], filter, depth, level);
      }
      assert ps[..|ps|] == ps;
      if HasAncestor(g, meta) {
        UpIsLower(g, meta);
        meta := g.classes[meta].ancestor;
      } else {
        return;
      }
    }
  }

  // Completeness: what is offered, told by the steps of a path.

  /** The property is declared by c or by a class above it. */
  ghost predicate Declares(g: Model, c: string, e: string, p: Prop) {
    Above(g, c, e) && e in g.classes && p in g.classes[e].properties
  }

  /** The type codes of structs, references and collections, or that of the basic type. */
  predicate OfType(filter: Option<int>, p: Prop) {
    filter.Some? ==> filter.value == match p.kind
                                     case Basic(code) => code
                                     case Struct(_) => 16
                                     case Reference(_) => 13
                                     case Collection(_) => 14
  }

  /** The path starts with p: it is p alone, an attribute of a struct p, or a path behind a reference or
      a collection p. The caption joins those of the steps with dots. */
  ghost predicate Continues(g: Model, p: Prop, filter: Option<int>, left: nat, name: string, caption: string)
    decreases left, 0
  {
    || (name == p.name && caption == p.caption)
    || (p.kind.Struct? && exists e, q :: Declares(g, p.kind.cls, e, q) && name == p.name + "$" + q.name && caption == p.caption + "." + q.caption)
    || (left > 0 && (p.kind.Reference? || p.kind.Collection?)
        && exists rest, behind :: Spells(g, p.kind.cls, filter, left - 1, rest, behind) && name == p.name + "." + rest && caption == p.caption + "." + behind)
  }

  /** A path of the class, all steps but an attribute being of the type asked for, with at most left
      steps through references and collections. */
  ghost predicate Spells(g: Model, c: string, filter: Option<int>, left: nat, name: string, caption: string)
    decreases left, 1
  {
    exists e, p :: Declares(g, c, e, p) && OfType(filter, p) && Continues(g, p, filter, left, name, caption)
  }

  lemma {:induction false} DeclaresUp(g: Model, c: string, e: string, p: Prop)
    ensures Declares(g, c, e, p) <==>
              || (c in g.classes && c == e && p in g.classes[c].properties)
              || (HasAncestor(g, c) && Declares(g, g.classes[c].ancestor, e, p))
  {
    if HasAncestor(g, c) {
      UpIsLower(g, c);
      if Declares(g, g.classes[c].ancestor, e, p) {
        assert Above(g, c, e);
      }
    }
  }

  lemma {:induction false} NestedOffers(m: Captions, p: Prop, ps: seq<Prop>, n: string)
    ensures var r := OfferNested(m, p, ps);
            && (n in m ==> n in r)
            && (forall q | q in ps && n == p.name + "$" + q.name :: n in r)
            && (n in r ==> (n in m && r[n] == m[n]) || exists q :: q in ps && n == p.name + "$" + q.name && r[n] == p.caption + "." + q.caption)
  {
    if ps != [] {
      var front, last := ps[..|ps| - 1], ps[|ps| - 1];
      assert ps == front + [last];
      NestedOffers(m, p, front, n);
    }
  }

  lemma {:induction false} StructOffers(g: Model, m: Captions, p: Prop, s: string, n: string)
    ensures var r := OfferStruct(g, m, p, s);
            && (n in m ==> n in r)
            && (forall e, q | Declares(g, s, e, q) && n == p.name + "$" + q.name :: n in r)
            && (n in r ==> ((n in m && r[n] == m[n])
                            || exists e, q :: Declares(g, s, e, q) && n == p.name + "$" + q.name && r[n] == p.caption + "." + q.caption))
    decreases Rank(g, s)
  {
    hide Declares, OfferNested, Above;
    forall e, q | Declares(g, s, e, q) && n == p.name + "$" + q.name
      ensures (s in g.classes && q in g.classes[s].properties) || (HasAncestor(g, s) && Declares(g, g.classes[s].ancestor, e, q)) {
      DeclaresUp(g, s, e, q);
    }
    if s in g.classes {
      var r := OfferStruct(g, m, p, s);
      var own := OfferNested(m, p, g.classes[s].properties);
      NestedOffers(m, p, g.classes[s].properties, n);
      if HasAncestor(g, s) {
        UpIsLower(g, s);
        StructOffers(g, own, p, g.classes[s].ancestor, n);
      }
      if n in r && !(n in m && r[n] == m[n]) {
        if n in own && r[n] == own[n] {
          var q :| q in g.classes[s].properties && n == p.name + "$" + q.name && r[n] == p.caption + "." + q.caption;
          DeclaresUp(g, s, s, q);
        } else {
          var e, q :| Declares(g, g.classes[s].ancestor, e, q) && n == p.name + "$" + q.name && r[n] == p.caption + "." + q.caption;
          DeclaresUp(g, s, e, q);
        }
      }
    }
  }

  lemma BehindOffers(p: Prop, sub: Captions, n: string)
    ensures var r := Behind(p, sub, sub.Keys);
            && (forall k | k in sub && n == p.name + "." + k :: n in r)
            && (n in r ==> exists k :: k in sub && n == p.name + "." + k && r[n] == p.caption + "." + sub[k])
  {
    forall k | k in sub && n == p.name + "." + k ensures n in Behind(p, sub, sub.Keys) {
      assert n == Dotted(p.name, k);
      BehindAt(p, sub, sub.Keys, k);
    }
    if n in Behind(p, sub, sub.Keys) {
      var k :| k in sub.Keys && n == Dotted(p.name, k);
      BehindAt(p, sub, sub.Keys, k);
    }
  }

  lemma {:induction false} OneOffers(g: Model, m: Captions, p: Prop, filter: Option<int>, depth: int, level: int, n: string)
    ensures var r, left := OfferOne(g, m, p, filter, depth, level), StepsLeft(depth, level);
            && (n in m ==> n in r)
            && (OfType(filter, p) ==> forall caption | Continues(g, p, filter, left, n, caption) :: n in r)
            && (n in r ==> (n in m && r[n] == m[n]) || (OfType(filter, p) && Continues(g, p, filter, left, n, r[n])))
    decreases StepsLeft(depth, level), 0, 1
  {
    hide Declares, OfferStruct, OfferClass, Behind, Spells;
    assert Passes(filter, p) <==> OfType(filter, p);
    hide Passes, OfType;
    if Passes(filter, p) {
      var named := m[p.name := p.caption];
      match p.kind
      case Basic(_) =>
      case Struct(s) => StructOffers(g, named, p, s, n);
      case Reference(c) => OfferBehindOffers(g, named, p, c, filter, depth, level, n, StepsLeft(depth, level) - 1);
      case Collection(c) => OfferBehindOffers(g, named, p, c, filter, depth, level, n, StepsLeft(depth, level) - 1);
    }
  }

  lemma {:induction false} OfferBehindOffers(g: Model, m: Captions, p: Prop, c: string, filter: Option<int>, depth: int, level: int, n: string, less: int)
    requires less == StepsLeft(depth, level) - 1
    ensures var r := OfferBehind(g, m, p, c, filter, depth, level);
            && (n in m ==> n in r)
            && (less >= 0 ==> forall rest, behind | Spells(g, c, filter, less, rest, behind) && n == p.name + "." + rest :: n in r)
            && (n in r ==> ((n in m && r[n] == m[n])
                            || (less >= 0 && exists rest, behind ::
                                  Spells(g, c, filter, less, rest, behind) && n == p.name + "." + rest && r[n] == p.caption + "." + behind)))
    decreases StepsLeft(depth, level), 0, 0
  {
    hide OfferClass, Behind;
    if c !in g.classes {
      hide Continues, OfType;
      forall e, q ensures !Declares(g, c, e, q) {
      }
      assert less >= 0 ==> forall rest, behind :: !Spells(g, c, filter, less, rest, behind);
    } else if less >= 0 {
      hide Spells;
      var sub := OfferClass(g, map[], c, filter, depth, level + 1);
      BehindOffers(p, sub, n);
      forall rest | n == p.name + "." + rest
        ensures rest in sub ==> Spells(g, c, filter, less, rest, sub[rest])
        ensures forall behind | Spells(g, c, filter, less, rest, behind) :: rest in sub {
        ClassOffers(g, map[], c, filter, depth, level + 1, rest);
      }
    }
  }

  lemma {:induction false} PropertiesOffer(g: Model, m: Captions, ps: seq<Prop>, filter: Option<int>, depth: int, level: int, n: string)
    ensures var r, left := OfferProperties(g, m, ps, filter, depth, level), StepsLeft(depth, level);
            && (n in m ==> n in r)
            && (forall p, caption | p in ps && OfType(filter, p) && Continues(g, p, filter, left, n, caption) :: n in r)
            && (n in r ==> (n in m && r[n] == m[n]) || exists p :: p in ps && OfType(filter, p) && Continues(g, p, filter, left, n, r[n]))
    decreases StepsLeft(depth, level), 0, |ps| + 1
  {
    hide OfType, Continues, OfferOne;
    if ps != [] {
      var front, last := ps[..|ps| - 1], ps[|ps| - 1];
      assert ps == front + [last];
      PropertiesOffer(g, m, front, filter, depth, level, n);
      OneOffers(g, OfferProperties(g, m, front, filter, depth, level), last, filter, depth, level, n);
    }
  }

  lemma SpellsUp(g: Model, c: string, filter: Option<int>, left: nat, n: string, caption: string)
    ensures Spells(g, c, filter, left, n, caption) <==>
              || (c in g.classes && exists p :: p in g.classes[c].properties && OfType(filter, p) && Continues(g, p, filter, left, n, caption))
              || (HasAncestor(g, c) && Spells(g, g.classes[c].ancestor, filter, left, n, caption))
  {
    hide Declares, OfType, Continues, Above;
    if Spells(g, c, filter, left, n, caption) {
      var e, p :| Declares(g, c, e, p) && OfType(filter, p) && Continues(g, p, filter, left, n, caption);
      DeclaresUp(g, c, e, p);
    }
    if p :| c in g.classes && p in g.classes[c].properties && OfType(filter, p) && Continues(g, p, filter, left, n, caption) {
      DeclaresUp(g, c, c, p);
    }
    if HasAncestor(g, c) && Spells(g, g.classes[c].ancestor, filter, left, n, caption) {
      var e, p :| Declares(g, g.classes[c].ancestor, e, p) && OfType(filter, p) && Continues(g, p, filter, left, n, caption);
      DeclaresUp(g, c, e, p);
    }
  }

  /** What the enumeration adds to m, from c upwards. */
  lemma {:induction false} ClassOffers(g: Model, m: Captions, c: string, filter: Option<int>, depth: int, level: int, n: string)
    ensures var r, left := OfferClass(g, m, c, filter, depth, level), StepsLeft(depth, level);
            && (n in m ==> n in r)
            && (forall caption | Spells(g, c, filter, left, n, caption) :: n in r)
            && (n in r ==> (n in m && r[n] == m[n]) || Spells(g, c, filter, left, n, r[n]))
    decreases StepsLeft(depth, level), Rank(g, c)
  {
    hide Spells, OfType, Continues, OfferProperties;
    var left := StepsLeft(depth, level);
    forall caption
      ensures Spells(g, c, filter, left, n, caption) <==>
                || (c in g.classes && exists p :: p in g.classes[c].properties && OfType(filter, p) && Continues(g, p, filter, left, n, caption))
                || (HasAncestor(g, c) && Spells(g, g.classes[c].ancestor, filter, left, n, caption)) {
      SpellsUp(g, c, filter, left, n, caption);
    }
    if c in g.classes {
      var ps := g.classes[c].properties;
      PropertiesOffer(g, m, ps, filter, depth, level, n);
      if HasAncestor(g, c) {
        UpIsLower(g, c);
        ClassOffers(g, OfferProperties(g, m, ps, filter, depth, level), g.classes[c].ancestor, filter, depth, level, n);
      }
    }
  }

  /** A name is offered exactly if it is a path, and with the caption of one. */
  lemma OfferedExactly(g: Model, c: string, filter: Option<int>, depth: int, level: int, name: string)
    ensures var m, left := OfferClass(g, map[], c, filter, depth, level), if level < depth then depth - level else 0;
            && (name in m <==> exists caption :: Spells(g, c, filter, left, name, caption))
            && (name in m ==> Spells(g, c, filter, left, name, m[name]))
  {
    hide Spells, OfferClass;
    var left := if level < depth then depth - level else 0;
    assert left == StepsLeft(depth, level);
    ClassOffers(g, map[], c, filter, depth, level, name);
  }

  // Soundness.

  /** A name steps through a collection when one of the steps before its last is one. */
  function ThroughCollection(g: Model, c: string, name: string): bool
    decreases |name|
  {
    var dot := Text.IndexOf(name, '.');
    if dot < 0 then false
    else
      var p := FindUp(g, c, name[..dot]);
      (p.Some? && p.value.kind.Collection?) || (IsReference(g, p) && ThroughCollection(g, p.value.kind.cls, name[dot + 1..]))
  }

  /** The name resolves exactly if it does not step through a collection. */
  predicate Sound(g: Model, c: string, name: string) {
    Resolve(g, c, name).Some? <==> !ThroughCollection(g, c, name)
  }

  ghost predicate AllSound(g: Model, c: string, m: Captions) {
    forall n | n in m :: Sound(g, c, n)
  }

  lemma PlainSound(g: Model, c: string, p: Prop)
    requires Plain(p.name) && FindUp(g, c, p.name) == Some(p)
    ensures Sound(g, c, p.name)
  {
    ResolvePlain(g, c, p.name);
    NoIndex(p.name);
  }

  lemma NestedSound(g: Model, c: string, p: Prop, name: string)
    requires WellNamed(g) && NoShadowing(g) && Plain(p.name) && Plain(name)
    requires FindUp(g, c, p.name) == Some(p) && IsStruct(g, Some(p)) && FindUp(g, p.kind.cls, name).Some?
    ensures Sound(g, c, p.name + "$" + name)
  {
    ResolveStruct(g, c, p.name, name);
    NoIndex(p.name + "$" + name);
  }

  lemma BehindSound(g: Model, c: string, p: Prop, name: string)
    requires WellNamed(g) && NoShadowing(g) && Plain(p.name) && FindUp(g, c, p.name) == Some(p)
    requires p.kind.Collection? || (IsReference(g, Some(p)) && Sound(g, p.kind.cls, name))
    ensures Sound(g, c, Dotted(p.name, name))
  {
    ResolveDotted(g, c, p.name, name);
    Splits(p.name, '.', name);
    assert Dotted(p.name, name) == p.name + ['.'] + name;
  }

  /** What a class above c declares is what c has under that name. */
  lemma {:induction false} DeclaredAbove(g: Model, c: string, meta: string, p: Prop)
    requires WellNamed(g) && NoShadowing(g) && Above(g, c, meta) && meta in g.classes && p in g.classes[meta].properties
    ensures FindUp(g, c, p.name) == Some(p) && Plain(p.name)
    decreases Rank(g, c)
  {
    if c == meta {
      var ps := g.classes[c].properties;
      assert NamedClass(g, c);
      FindFacts(ps, p.name);
      var i :| 0 <= i < |ps| && ps[i] == p;
      var q := Find(ps, p.name).value;
      var j :| 0 <= j < |ps| && ps[j] == q;
    } else {
      UpIsLower(g, c);
      DeclaredAbove(g, g.classes[c].ancestor, meta, p);
      SameUp(g, c, p.name);
    }
  }

  lemma {:induction false} AboveNext(g: Model, c: string, meta: string)
    requires Above(g, c, meta) && HasAncestor(g, meta)
    ensures Above(g, c, g.classes[meta].ancestor)
    decreases Rank(g, c)
  {
    if c != meta {
      UpIsLower(g, c);
      AboveNext(g, g.classes[c].ancestor, meta);
    } else {
      UpIsLower(g, c);
      assert Above(g, g.classes[meta].ancestor, g.classes[meta].ancestor);
    }
  }

  lemma {:induction false} NestedAllSound(g: Model, m: Captions, c: string, p: Prop, s: string, ps: seq<Prop>)
    requires WellNamed(g) && NoShadowing(g) && AllSound(g, c, m)
    requires FindUp(g, c, p.name) == Some(p) && Plain(p.name) && IsStruct(g, Some(p)) && Above(g, p.kind.cls, s) && s in g.classes
    requires forall q | q in ps :: q in g.classes[s].properties
    ensures AllSound(g, c, OfferNested(m, p, ps))
  {
    hide Sound, WellNamed, NoShadowing;
    if ps != [] {
      var q := ps[|ps| - 1];
      NestedAllSound(g, m, c, p, s, ps[..|ps| - 1]);
      DeclaredAbove(g, p.kind.cls, s, q);
      NestedSound(g, c, p, q.name);
    }
  }

  lemma {:induction false} StructSound(g: Model, m: Captions, c: string, p: Prop, s: string)
    requires WellNamed(g) && NoShadowing(g) && AllSound(g, c, m)
    requires FindUp(g, c, p.name) == Some(p) && Plain(p.name) && p.kind.Struct? && (s in g.classes ==> p.kind.cls in g.classes && Above(g, p.kind.cls, s))
    ensures AllSound(g, c, OfferStruct(g, m, p, s))
    decreases Rank(g, s)
  {
    hide Sound, WellNamed, NoShadowing;
    if s in g.classes {
      NestedAllSound(g, m, c, p, s, g.classes[s].properties);
      if HasAncestor(g, s) {
        UpIsLower(g, s);
        AboveNext(g, p.kind.cls, s);
        StructSound(g, OfferNested(m, p, g.classes[s].properties), c, p, g.classes[s].ancestor);
      }
    }
  }

  lemma {:induction false} OneSound(g: Model, m: Captions, c: string, p: Prop, filter: Option<int>, depth: int, level: int)
    requires WellNamed(g) && NoShadowing(g) && AllSound(g, c, m) && FindUp(g, c, p.name) == Some(p) && Plain(p.name)
    ensures AllSound(g, c, OfferOne(g, m, p, filter, depth, level))
    decreases StepsLeft(depth, level), 0, 0
  {
    hide Sound, WellNamed, NoShadowing, OfferClass, OfferStruct, Dotted;
    if Passes(filter, p) {
      PlainSound(g, c, p);
      var named := m[p.name := p.caption];
      if p.kind.Struct? {
        StructSound(g, named, c, p, p.kind.cls);
      } else if !p.kind.Basic? && p.kind.cls in g.classes && level < depth {
        PathsAreSound(g, map[], p.kind.cls, p.kind.cls, filter, depth, level + 1);
        var sub := OfferClass(g, map[], p.kind.cls, filter, depth, level + 1);
        forall n | n in Behind(p, sub, sub.Keys) ensures Sound(g, c, n) {
          var k :| k in sub.Keys && n == Dotted(p.name, k);
          BehindSound(g, c, p, k);
        }
      }
    }
  }

  lemma {:induction false} PropertiesSound(g: Model, m: Captions, c: string, ps: seq<Prop>, filter: Option<int>, depth: int, level: int)
    requires WellNamed(g) && NoShadowing(g) && AllSound(g, c, m) && forall p | p in ps :: FindUp(g, c, p.name) == Some(p) && Plain(p.name)
    ensures AllSound(g, c, OfferProperties(g, m, ps, filter, depth, level))
    decreases StepsLeft(depth, level), 0, |ps|
  {
    hide Sound, WellNamed, NoShadowing, OfferOne;
    if ps != [] {
      PropertiesSound(g, m, c, ps[..|ps| - 1], filter, depth, level);
      OneSound(g, OfferProperties(g, m, ps[..|ps| - 1], filter, depth, level), c, ps[|ps| - 1], filter, depth, level);
    }
  }

  /** Every path offered for c, from meta upwards and over what is already sound, resolves
      exactly if it does not step through a collection. */
  lemma {:induction false} PathsAreSound(g: Model, m: Captions, c: string, meta: string, filter: Option<int>, depth: int, level: int)
    requires WellNamed(g) && NoShadowing(g) && AllSound(g, c, m) && Above(g, c, meta)
    ensures AllSound(g, c, OfferClass(g, m, meta, filter, depth, level))
    decreases StepsLeft(depth, level), Rank(g, meta)
  {
    hide Sound, WellNamed, NoShadowing, OfferProperties;
    if meta in g.classes {
      var ps := g.classes[meta].properties;
      forall p | p in ps ensures FindUp(g, c, p.name) == Some(p) && Plain(p.name) {
        DeclaredAbove(g, c, meta, p);
      }
      PropertiesSound(g, m, c, ps, filter, depth, level);
      if HasAncestor(g, meta) {
        UpIsLower(g, meta);
        AboveNext(g, c, meta);
        PathsAreSound(g, OfferProperties(g, m, ps, filter, depth, level), c, g.classes[meta].ancestor, filter, depth, level);
      }
    }
  }

  /** What getClassProperties offers for a class. */
  lemma OfferedPathsResolve(g: Model, c: string, filter: Option<int>, depth: int, name: string)
    requires WellNamed(g) && NoShadowing(g) && name in OfferClass(g, map[], c, filter, depth, 0)
    ensures Resolve(g, c, name).Some? <==> !ThroughCollection(g, c, name)
  {
    PathsAreSound(g, map[], c, c, filter, depth, 0);
    assert Sound(g, c, name);
  }

  // Captions.

  /** A plain first step can be read off a path. */
  lemma FirstStep(a: string, s: char, x: string, b: string, t: char, y: string)
    requires Plain(a) && Plain(b) && s in {'.', '$'} && t in {'.', '$'} && a + [s] + x == b + [t] + y
    ensures a == b && s == t && x == y
  {
    var n := a + [s] + x;
    assert n[|a|] == s && n[|b|] == t;
    assert forall j | 0 <= j < |a| :: n[j] == a[j];
    assert forall j | 0 <= j < |b| :: n[j] == b[j];
    assert |a| == |b|;
    assert a == n[..|a|] && b == n[..|b|] && x == n[|a| + 1..] && y == n[|b| + 1..];
  }

  /** In a class without shadowed names a name is declared once. */
  lemma DeclaredOnce(g: Model, c: string, d: string, p: Prop, e: string, q: Prop)
    requires WellNamed(g) && NoShadowing(g) && Declares(g, c, d, p) && Declares(g, c, e, q)
    ensures Plain(p.name) && Plain(q.name) && (p.name == q.name ==> p == q)
  {
    hide WellNamed, NoShadowing;
    DeclaredAbove(g, c, d, p);
    DeclaredAbove(g, c, e, q);
  }

  /** How a path with a given first property goes on. */
  datatype Tail = End | Into(attribute: string) | On(rest: string)

  function Name(p: Prop, t: Tail): string {
    match t
    case End => p.name
    case Into(a) => p.name + ['$'] + a
    case On(rest) => p.name + ['.'] + rest
  }

  lemma SameTail(p: Prop, t: Tail, q: Prop, u: Tail)
    requires Plain(p.name) && Plain(q.name) && Name(p, t) == Name(q, u)
    ensures p.name == q.name && t == u
  {
    if !t.End? && !u.End? {
      FirstStep(p.name, if t.Into? then '$' else '.', if t.Into? then t.attribute else t.rest,
                q.name, if u.Into? then '$' else '.', if u.Into? then u.attribute else u.rest);
    } else {
      MoreIsNotPlain(p, t);
      MoreIsNotPlain(q, u);
    }
  }

  lemma MoreIsNotPlain(p: Prop, t: Tail)
    ensures !t.End? ==> !Plain(Name(p, t))
  {
    if !t.End? {
      assert Name(p, t)[|p.name|] in Name(p, t);
    }
  }

  lemma TailOf(g: Model, p: Prop, filter: Option<int>, left: nat, name: string, caption: string) returns (t: Tail)
    requires Continues(g, p, filter, left, name, caption)
    ensures name == Name(p, t)
    ensures match t
            case End => caption == p.caption
            case Into(a) => p.kind.Struct? && exists e, q :: Declares(g, p.kind.cls, e, q) && q.name == a && caption == p.caption + "." + q.caption
            case On(rest) => left > 0 && (p.kind.Reference? || p.kind.Collection?)
                             && exists behind :: Spells(g, p.kind.cls, filter, left - 1, rest, behind) && caption == p.caption + "." + behind
  {
    hide Declares, Spells;
    if name == p.name && caption == p.caption {
      t := End;
    } else if e, q :| p.kind.Struct? && Declares(g, p.kind.cls, e, q) && name == p.name + "$" + q.name && caption == p.caption + "." + q.caption {
      t := Into(q.name);
    } else {
      var rest, behind :| Spells(g, p.kind.cls, filter, left - 1, rest, behind) && name == p.name + "." + rest && caption == p.caption + "." + behind;
      t := On(rest);
    }
  }

  /** Where no name is shadowed, a path has one caption. */
  lemma {:induction false} OneCaption(g: Model, c: string, filter: Option<int>, left: nat, name: string, one: string, other: string)
    requires WellNamed(g) && NoShadowing(g) && Spells(g, c, filter, left, name, one) && Spells(g, c, filter, left, name, other)
    ensures one == other
    decreases left
  {
    hide WellNamed, NoShadowing, Declares, OfType, Continues;
    var d, p :| Declares(g, c, d, p) && OfType(filter, p) && Continues(g, p, filter, left, name, one);
    var e, q :| Declares(g, c, e, q) && OfType(filter, q) && Continues(g, q, filter, left, name, other);
    hide Spells;
    DeclaredOnce(g, c, d, p, e, q);
    var t := TailOf(g, p, filter, left, name, one);
    var u := TailOf(g, q, filter, left, name, other);
    SameTail(p, t, q, u);
    match t
    case End =>
    case Into(a) =>
      var d1, x :| Declares(g, p.kind.cls, d1, x) && x.name == a && one == p.caption + "." + x.caption;
      var e1, y :| Declares(g, p.kind.cls, e1, y) && y.name == a && other == p.caption + "." + y.caption;
      DeclaredOnce(g, p.kind.cls, d1, x, e1, y);
    case On(rest) =>
      var x :| Spells(g, p.kind.cls, filter, left - 1, rest, x) && one == p.caption + "." + x;
      var y :| Spells(g, p.kind.cls, filter, left - 1, rest, y) && other == p.caption + "." + y;
      OneCaption(g, p.kind.cls, filter, left - 1, rest, x, y);
  }

  /** The caption offered for a path joins those of its steps, where no name is shadowed. */
  lemma CaptionsJoined(g: Model, c: string, filter: Option<int>, depth: int, level: int, name: string, caption: string)
    requires WellNamed(g) && NoShadowing(g)
    requires var left := if level < depth then depth - level else 0; Spells(g, c, filter, left, name, caption)
    ensures var m := OfferClass(g, map[], c, filter, depth, level); name in m && m[name] == caption
  {
    hide WellNamed, NoShadowing, Spells, OfferClass;
    OfferedExactly(g, c, filter, depth, level, name);
    OneCaption(g, c, filter, if level < depth then depth - level else 0, name, caption, OfferClass(g, map[], c, filter, depth, level)[name]);
  }

  // With shadowed names.

  /** The steps of a name are plain; the last may be a property of a struct. */
  predicate Shaped(name: string)
    decreases |name|
  {
    var dot, dollar := Text.IndexOf(name, '.'), Text.IndexOf(name, '$');
    if dot >= 0 then Plain(name[..dot]) && Shaped(name[dot + 1..])
    else dollar >= 0 ==> Plain(name[..dollar]) && Plain(name[dollar + 1..])
  }

  /** Every step leads on: each but the last through the reference a class has under it, whatever
      shadows that, and the last to a property, if need be in the struct the class has under it. */
  predicate Leads(g: Model, c: string, name: string)
    decreases |name|
  {
    var dot, dollar := Text.IndexOf(name, '.'), Text.IndexOf(name, '$');
    if dot >= 0 then
      var p := NearestReference(g, c, name[..dot]);
      p.Some? && Leads(g, p.value.kind.cls, name[dot + 1..])
    else if dollar >= 0 then
      var p := NearestStruct(g, c, name[..dollar]);
      p.Some? && FindUp(g, p.value.kind.cls, name[dollar + 1..]).Some?
    else FindUp(g, c, name).Some?
  }

  lemma ResolveAtDot(g: Model, c: string, name: string)
    requires WellNamed(g) && Text.IndexOf(name, '.') >= 0 && Plain(name[..Text.IndexOf(name, '.')])
    ensures var dot := Text.IndexOf(name, '.');
            var p := NearestReference(g, c, name[..dot]);
            Resolve(g, c, name) == if p.Some? then Resolve(g, p.value.kind.cls, name[dot + 1..]) else None
  {
    hide WellNamed, Founded, Resolve, NearestReference, FindUp, Text.IndexOf, Plain;
    var dot := Text.IndexOf(name, '.');
    Rejoined(name, dot);
    ResolveDottedExactly(g, c, name[..dot], name[dot + 1..]);
  }

  lemma ResolveAtDollar(g: Model, c: string, name: string)
    requires WellNamed(g) && Text.IndexOf(name, '$') >= 0
    requires var i := Text.IndexOf(name, '$'); Plain(name[..i]) && Plain(name[i + 1..])
    ensures var i := Text.IndexOf(name, '$');
            var p := NearestStruct(g, c, name[..i]);
            Resolve(g, c, name) == if p.Some? then FindUp(g, p.value.kind.cls, name[i + 1..]) else None
  {
    hide WellNamed, Founded, Resolve, NearestStruct, FindUp, Text.IndexOf, Plain;
    var i := Text.IndexOf(name, '$');
    Rejoined(name, i);
    ResolveStructExactly(g, c, name[..i], name[i + 1..]);
  }

  lemma {:induction false} LeadsExactly(g: Model, c: string, name: string)
    requires WellNamed(g) && Shaped(name)
    ensures Resolve(g, c, name).Some? <==> Leads(g, c, name)
    decreases |name|
  {
    hide WellNamed, Founded, Resolve, NearestReference, NearestStruct, FindUp, Text.IndexOf;
    var dot := Text.IndexOf(name, '.');
    if dot >= 0 {
      hide Plain;
      ResolveAtDot(g, c, name);
      var p := NearestReference(g, c, name[..dot]);
      if p.Some? {
        LeadsExactly(g, p.value.kind.cls, name[dot + 1..]);
      }
    } else if Text.IndexOf(name, '$') >= 0 {
      hide Plain;
      ResolveAtDollar(g, c, name);
    } else {
      ResolvePlain(g, c, name);
    }
  }

  lemma Rejoined(name: string, i: nat)
    requires i < |name|
    ensures name[i] == '.' ==> name == name[..i] + "." + name[i + 1..]
    ensures name[i] == '$' ==> name == name[..i] + "$" + name[i + 1..]
  {
  }

  ghost predicate AllShaped(m: Captions) {
    forall n | n in m :: Shaped(n)
  }

  lemma PlainIsShaped(name: string)
    requires Plain(name)
    ensures Shaped(name)
  {
  }

  lemma NestedIsShaped(a: string, b: string)
    requires Plain(a) && Plain(b)
    ensures Shaped(a + "$" + b)
  {
    Splits(a, '$', b);
    assert a + "$" + b == a + ['$'] + b;
    NoIndex(a + "$" + b);
  }

  lemma DottedIsShaped(a: string, rest: string)
    requires Plain(a) && Shaped(rest)
    ensures Shaped(Dotted(a, rest))
  {
    Splits(a, '.', rest);
    assert Dotted(a, rest) == a + ['.'] + rest;
  }

  lemma {:induction false} NestedShaped(m: Captions, p: Prop, ps: seq<Prop>)
    requires AllShaped(m) && Plain(p.name) && forall q | q in ps :: Plain(q.name)
    ensures AllShaped(OfferNested(m, p, ps))
  {
    hide Shaped;
    if ps != [] {
      NestedShaped(m, p, ps[..|ps| - 1]);
      NestedIsShaped(p.name, ps[|ps| - 1].name);
    }
  }

  lemma PlainNames(g: Model, c: string)
    requires WellNamed(g) && c in g.classes
    ensures forall p | p in g.classes[c].properties :: Plain(p.name)
  {
    assert NamedClass(g, c);
  }

  lemma {:induction false} StructShaped(g: Model, m: Captions, p: Prop, s: string)
    requires WellNamed(g) && AllShaped(m) && Plain(p.name)
    ensures AllShaped(OfferStruct(g, m, p, s))
    decreases Rank(g, s)
  {
    hide Shaped, WellNamed;
    if s in g.classes {
      PlainNames(g, s);
      NestedShaped(m, p, g.classes[s].properties);
      if HasAncestor(g, s) {
        UpIsLower(g, s);
        StructShaped(g, OfferNested(m, p, g.classes[s].properties), p, g.classes[s].ancestor);
      }
    }
  }

  lemma {:induction false} OneShaped(g: Model, m: Captions, p: Prop, filter: Option<int>, depth: int, level: int)
    requires WellNamed(g) && AllShaped(m) && Plain(p.name)
    ensures AllShaped(OfferOne(g, m, p, filter, depth, level))
    decreases StepsLeft(depth, level), 0, 0
  {
    hide Shaped, WellNamed, OfferClass, OfferStruct, Dotted;
    if Passes(filter, p) {
      PlainIsShaped(p.name);
      var named := m[p.name := p.caption];
      if p.kind.Struct? {
        StructShaped(g, named, p, p.kind.cls);
      } else if !p.kind.Basic? && p.kind.cls in g.classes && level < depth {
        PathsAreShaped(g, map[], p.kind.cls, filter, depth, level + 1);
        var sub := OfferClass(g, map[], p.kind.cls, filter, depth, level + 1);
        forall n | n in Behind(p, sub, sub.Keys) ensures Shaped(n) {
          var k :| k in sub.Keys && n == Dotted(p.name, k);
          DottedIsShaped(p.name, k);
        }
      }
    }
  }

  lemma {:induction false} PropertiesShaped(g: Model, m: Captions, ps: seq<Prop>, filter: Option<int>, depth: int, level: int)
    requires WellNamed(g) && AllShaped(m) && forall p | p in ps :: Plain(p.name)
    ensures AllShaped(OfferProperties(g, m, ps, filter, depth, level))
    decreases StepsLeft(depth, level), 0, |ps|
  {
    hide Shaped, WellNamed, OfferOne;
    if ps != [] {
      PropertiesShaped(g, m, ps[..|ps| - 1], filter, depth, level);
      OneShaped(g, OfferProperties(g, m, ps[..|ps| - 1], filter, depth, level), ps[|ps| - 1], filter, depth, level);
    }
  }

  lemma {:induction false} PathsAreShaped(g: Model, m: Captions, meta: string, filter: Option<int>, depth: int, level: int)
    requires WellNamed(g) && AllShaped(m)
    ensures AllShaped(OfferClass(g, m, meta, filter, depth, level))
    decreases StepsLeft(depth, level), Rank(g, meta)
  {
    hide Shaped, WellNamed, OfferProperties;
    if meta in g.classes {
      var ps := g.classes[meta].properties;
      PlainNames(g, meta);
      PropertiesShaped(g, m, ps, filter, depth, level);
      if HasAncestor(g, meta) {
        UpIsLower(g, meta);
        PathsAreShaped(g, OfferProperties(g, m, ps, filter, depth, level), g.classes[meta].ancestor, filter, depth, level);
      }
    }
  }

  /** Whatever is shadowed: an offered path resolves if and only if every step leads on. */
  lemma OfferedPathsResolveExactly(g: Model, c: string, filter: Option<int>, depth: int, name: string)
    requires WellNamed(g) && name in OfferClass(g, map[], c, filter, depth, 0)
    ensures Resolve(g, c, name).Some? <==> Leads(g, c, name)
  {
    PathsAreShaped(g, map[], c, filter, depth, 0);
    assert Shaped(name);
    LeadsExactly(g, c, name);
  }

  const NUMBER := Prop("b", "", Basic(0))
  const TO_LEFT := Prop("a", "", Reference("left"))
  const TO_RIGHT := Prop("a", "", Reference("right"))

  /** A class whose reference a shadows that of its ancestor and leads to another class. */
  function Shadowing(): Model {
    var g := Graph(map["base" := ClassMeta("", false, [TO_LEFT]), "sub" := ClassMeta("base", false, [TO_RIGHT]),
                       "left" := ClassMeta("", false, [NUMBER]), "right" := ClassMeta("", false, [])],
                   map["base" := 0, "sub" := 1, "left" := 0, "right" := 0]);
    assert Grounded(g, "base") && Grounded(g, "sub") && Grounded(g, "left") && Grounded(g, "right");
    g
  }

  /** A path is offered that steps through no collection and does not resolve: it was found by way of
      the shadowed reference. */
  lemma ShadowedPathFails()
    ensures WellNamed(Shadowing()) && "a.b" in OfferClass(Shadowing(), map[], "sub", None, 1, 0)
    ensures !ThroughCollection(Shadowing(), "sub", "a.b") && Resolve(Shadowing(), "sub", "a.b").None?
  {
    var g := Shadowing();
    assert NamedClass(g, "base") && NamedClass(g, "sub") && NamedClass(g, "left") && NamedClass(g, "right");
    ShadowedIsOffered(g);
    Splits("a", '.', "b");
    assert "a.b" == "a" + ['.'] + "b";
    assert FindUp(g, "sub", "a") == Some(TO_RIGHT);
    ResolveDottedExactly(g, "sub", "a", "b");
    ResolvePlain(g, "right", "b");
    assert FindUp(g, "right", "b").None?;
  }

  /** What a class offers is offered behind a reference to it. */
  lemma OfferedBehind(g: Model, m: Captions, p: Prop, depth: int, level: int, k: string)
    requires p.kind.Reference? && p.kind.cls in g.classes && level < depth
    requires k in OfferClass(g, map[], p.kind.cls, None, depth, level + 1)
    ensures Dotted(p.name, k) in OfferOne(g, m, p, None, depth, level)
  {
    hide OfferClass, Behind, Dotted;
    var sub := OfferClass(g, map[], p.kind.cls, None, depth, level + 1);
    BehindAt(p, sub, sub.Keys, k);
  }

  lemma OneProperty(g: Model, m: Captions, p: Prop, depth: int, level: int)
    ensures OfferProperties(g, m, [p], None, depth, level) == OfferOne(g, m, p, None, depth, level)
  {
    hide OfferOne;
    assert [p][..0] == [];
    assert OfferProperties(g, m, [], None, depth, level) == m;
  }

  lemma LeftOffersNumber(g: Model)
    requires g == Shadowing()
    ensures "b" in OfferClass(g, map[], "left", None, 1, 1)
  {
    OneProperty(g, map[], NUMBER, 1, 1);
  }

  lemma ShadowedIsOffered(g: Model)
    requires g == Shadowing()
    ensures "a.b" in OfferClass(g, map[], "sub", None, 1, 0)
  {
    hide OfferOne, OfferProperties, Dotted;
    LeftOffersNumber(g);
    var own := OfferProperties(g, map[], [TO_RIGHT], None, 1, 0);
    OneProperty(g, own, TO_LEFT, 1, 0);
    OfferedBehind(g, own, TO_LEFT, 1, 0, "b");
    IsDotted();
    UpIsLower(g, "sub");
    assert OfferClass(g, own, "base", None, 1, 0) == OfferProperties(g, own, [TO_LEFT], None, 1, 0);
  }

  lemma IsDotted()
    ensures Dotted("a", "b") == "a.b"
  {
  }
}
