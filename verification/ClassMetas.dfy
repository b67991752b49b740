/** Classes with inheritance, structs, references and collections: the graph, and the resolver
    of property names (StructMeta.PropertyMeta). */
module ClassMetas {
  import opened Wrappers
  import Text

  /** The kind of a property: of a basic type, a struct, a reference or a collection. */
  datatype Kind = Basic(code: int) | Struct(cls: string) | Reference(cls: string) | Collection(cls: string)

  const REFERENCE_CODE := 13
  const COLLECTION_CODE := 14
  const STRUCT_CODE := 16

  function Code(k: Kind): int {
    match k
    case Basic(code) => code
    case Struct(_) => STRUCT_CODE
    case Reference(_) => REFERENCE_CODE
    case Collection(_) => COLLECTION_CODE
  }

  datatype Prop = Prop(name: string, caption: string, kind: Kind)

  datatype ClassMeta = ClassMeta(ancestor: string, isStruct: bool, properties: seq<Prop>)

  /** rank certifies that ancestors are acyclic; references may well be cyclic. */
  datatype Graph = Graph(classes: map<string, ClassMeta>, rank: map<string, nat>)

  ghost predicate Founded(g: Graph) {
    && "" !in g.classes
    && forall n {:trigger Grounded(g, n)} | n in g.classes :: Grounded(g, n)
  }

  predicate Grounded(g: Graph, n: string)
    requires n in g.classes
  {
    n in g.rank && (g.classes[n].ancestor in g.classes ==> g.classes[n].ancestor in g.rank && g.rank[g.classes[n].ancestor] < g.rank[n])
  }

  type Model = g: Graph | Founded(g) witness Graph(map[], map[])

  predicate HasAncestor(g: Model, c: string) {
    c in g.classes && g.classes[c].ancestor in g.classes
  }

  /** The position of a class in the order that walks up end in. */
  function Rank(g: Model, c: string): (r: nat)
    ensures r > 0 <==> c in g.classes
  {
    if c in g.classes then (assert Grounded(g, c); g.rank[c] + 1) else 0
  }

  lemma UpIsLower(g: Model, c: string)
    requires HasAncestor(g, c)
    ensures Rank(g, g.classes[c].ancestor) < Rank(g, c)
  {
    assert Grounded(g, c) && Grounded(g, g.classes[c].ancestor);
  }

  /** meta is c or above it. */
  predicate Above(g: Model, c: string, meta: string)
    decreases Rank(g, c)
  {
    c == meta || (HasAncestor(g, c) && (UpIsLower(g, c); Above(g, g.classes[c].ancestor, meta)))
  }

  function Find(ps: seq<Prop>, name: string): Option<Prop> {
    if ps == [] then None
    else if ps[|ps| - 1].name == name then Some(ps[|ps| - 1])
    else Find(ps[..|ps| - 1], name)
  }

  lemma {:induction false} FindFacts(ps: seq<Prop>, name: string)
    ensures var r := Find(ps, name);
            if r.Some? then r.value in ps && r.value.name == name else forall i | 0 <= i < |ps| :: ps[i].name != name
  {
    if ps != [] && ps[|ps| - 1].name != name {
      FindFacts(ps[..|ps| - 1], name);
    }
  }

  /** StructMeta.PropertyMeta: dots step through references, dollars into structs, and what a
      class does not have is looked up in its ancestor. */
  function Resolve(g: Model, c: string, name: string): Option<Prop>
    decreases |name|, Rank(g, c)
  {
    if c !in g.classes then None
    else
      var dot, dollar := Text.IndexOf(name, '.'), Text.IndexOf(name, '$');
      var through := if dot >= 0 then Resolve(g, c, name[..dot]) else None;
      if through.Some? && through.value.kind.Reference? && through.value.kind.cls in g.classes then
        Resolve(g, through.value.kind.cls, name[dot + 1..])
      else
        var within := if dollar >= 0 then Resolve(g, c, name[..dollar]) else None;
        if within.Some? && within.value.kind.Struct? && within.value.kind.cls in g.classes then
          Resolve(g, within.value.kind.cls, name[dollar + 1..])
        else
          var own := Find(g.classes[c].properties, name);
          if own.None? && HasAncestor(g, c) then
            UpIsLower(g, c);
            Resolve(g, g.classes[c].ancestor, name)
          else own
  }

  /** The nearest property of that very name on the way up from c. */
  function FindUp(g: Model, c: string, name: string): Option<Prop>
    decreases Rank(g, c)
  {
    if c !in g.classes then None
    else
      var own := Find(g.classes[c].properties, name);
      if own.None? && HasAncestor(g, c) then
        UpIsLower(g, c);
        FindUp(g, g.classes[c].ancestor, name)
      else own
  }

  predicate Plain(name: string) {
    '.' !in name && '$' !in name
  }

  ghost predicate DistinctNames(ps: seq<Prop>) {
    forall i, j | 0 <= i < j < |ps| :: ps[i].name != ps[j].name
  }

  /** Property names are plain and occur once in a class. */
  ghost predicate WellNamed(g: Model) {
    forall c {:trigger NamedClass(g, c)} | c in g.classes :: NamedClass(g, c)
  }

  ghost predicate NamedClass(g: Model, c: string)
    requires c in g.classes
  {
    var ps := g.classes[c].properties;
    DistinctNames(ps) && forall i | 0 <= i < |ps| :: Plain(ps[i].name)
  }

  /** No class declares a property that its ancestor has already. */
  ghost predicate NoShadowing(g: Model) {
    forall c {:trigger Unshadowed(g, c)} | HasAncestor(g, c) :: Unshadowed(g, c)
  }

  ghost predicate Unshadowed(g: Model, c: string)
    requires HasAncestor(g, c)
  {
    forall i | 0 <= i < |g.classes[c].properties| :: FindUp(g, g.classes[c].ancestor, g.classes[c].properties[i].name).None?
  }

  /** A class has no properties with dots or dollars in their names. */
  lemma {:induction false} NoSuchOwn(g: Model, c: string, name: string)
    requires WellNamed(g) && !Plain(name)
    ensures FindUp(g, c, name).None?
    decreases Rank(g, c)
  {
    if c in g.classes {
      assert NamedClass(g, c);
      FindFacts(g.classes[c].properties, name);
      if HasAncestor(g, c) {
        UpIsLower(g, c);
        NoSuchOwn(g, g.classes[c].ancestor, name);
      }
    }
  }

  /** A plain name resolves to the nearest property of that name. */
  lemma {:induction false} ResolvePlain(g: Model, c: string, name: string)
    requires Plain(name)
    ensures Resolve(g, c, name) == FindUp(g, c, name)
    decreases Rank(g, c)
  {
    if HasAncestor(g, c) {
      UpIsLower(g, c);
      ResolvePlain(g, g.classes[c].ancestor, name);
    }
  }

  lemma Splits(a: string, sep: char, b: string)
    requires sep !in a
    ensures var s := a + [sep] + b; Text.IndexOf(s, sep) == |a| && s[..|a|] == a && s[|a| + 1..] == b
  {
    Text.SeparatorPosition(a, sep, b);
  }

  /** What the ancestor has under a name is what the class has under it. */
  lemma SameUp(g: Model, c: string, name: string)
    requires NoShadowing(g) && HasAncestor(g, c)
    ensures FindUp(g, g.classes[c].ancestor, name).None? || FindUp(g, g.classes[c].ancestor, name) == FindUp(g, c, name)
  {
    FindFacts(g.classes[c].properties, name);
    assert Unshadowed(g, c);
    UpIsLower(g, c);
  }

  predicate IsReference(g: Model, p: Option<Prop>) {
    p.Some? && p.value.kind.Reference? && p.value.kind.cls in g.classes
  }

  predicate IsStruct(g: Model, p: Option<Prop>) {
    p.Some? && p.value.kind.Struct? && p.value.kind.cls in g.classes
  }

  /** The first dollar of a.rest is in the rest. */
  lemma DottedStruct(a: string, rest: string)
    requires Plain(a)
    ensures var s := a + "." + rest; var i := Text.IndexOf(s, '$');
            i >= 0 ==> |a| < i && i - |a| - 1 < |rest| && s[..i] == a + "." + rest[..i - |a| - 1]
  {
    var s := a + "." + rest;
    var i := Text.IndexOf(s, '$');
    if i >= 0 {
      assert forall j | 0 <= j < |a| :: s[j] == a[j];
      assert s[|a|] == '.';
    }
  }

  lemma FindIsOwn(g: Model, c: string, s: string)
    requires c in g.classes && FindUp(g, c, s).None?
    ensures Find(g.classes[c].properties, s).None?
  {
  }

  /** The reference that c has under a name: the nearest property of that name or, where that is none,
      the one its ancestor has. */
  function NearestReference(g: Model, c: string, a: string): (r: Option<Prop>)
    ensures r.Some? ==> IsReference(g, r)
    decreases Rank(g, c)
  {
    if IsReference(g, FindUp(g, c, a)) then FindUp(g, c, a)
    else if HasAncestor(g, c) then
      UpIsLower(g, c);
      NearestReference(g, g.classes[c].ancestor, a)
    else None
  }

  /** The struct that c has under a name, in the same way. */
  function NearestStruct(g: Model, c: string, a: string): (r: Option<Prop>)
    ensures r.Some? ==> IsStruct(g, r)
    decreases Rank(g, c)
  {
    if IsStruct(g, FindUp(g, c, a)) then FindUp(g, c, a)
    else if HasAncestor(g, c) then
      UpIsLower(g, c);
      NearestStruct(g, g.classes[c].ancestor, a)
    else None
  }

  /** The resolver with its branches told by names. */
  lemma ResolveStep(g: Model, c: string, name: string)
    requires c in g.classes
    ensures var dot, dollar := Text.IndexOf(name, '.'), Text.IndexOf(name, '$');
            var through := if dot >= 0 then Resolve(g, c, name[..dot]) else None;
            var within := if dollar >= 0 then Resolve(g, c, name[..dollar]) else None;
            var own := Find(g.classes[c].properties, name);
            Resolve(g, c, name) ==
              if IsReference(g, through) then Resolve(g, through.value.kind.cls, name[dot + 1..])
              else if IsStruct(g, within) then Resolve(g, within.value.kind.cls, name[dollar + 1..])
              else if own.None? && HasAncestor(g, c) then Resolve(g, g.classes[c].ancestor, name)
              else own
  {
    hide Find, Text.IndexOf;
  }

  lemma OutsideNothing(g: Model, c: string, name: string)
    requires c !in g.classes
    ensures Resolve(g, c, name).None?
  {
  }

  /** Where x is a struct, x$y is looked up in it, however many steps x and y take. */
  lemma {:induction false} ResolveWithin(g: Model, c: string, x: string, y: string)
    requires '$' !in x && IsStruct(g, Resolve(g, c, x))
    ensures Resolve(g, c, x + "$" + y) == Resolve(g, Resolve(g, c, x).value.kind.cls, y)
    decreases |x| + |y|, 1
  {
    hide Text.IndexOf, Resolve, Find, Founded;
    if c !in g.classes {
      OutsideNothing(g, c, x);
      return;
    }
    var s := x + "$" + y;
    var i, j := Text.IndexOf(x, '.'), Text.IndexOf(y, '.');
    Splits(x, '$', y);
    assert s == x + ['$'] + y;
    FirstDot(x, y);
    ResolveStep(g, c, s);
    if i >= 0 {
      WithinLeft(g, c, x, y);
    } else if j >= 0 {
      WithinRight(g, c, x, y);
    }
  }

  /** The first step of x$y is one of x. */
  lemma {:induction false} WithinLeft(g: Model, c: string, x: string, y: string)
    requires '$' !in x && IsStruct(g, Resolve(g, c, x)) && c in g.classes && Text.IndexOf(x, '.') >= 0
    ensures var s, i := x + "$" + y, Text.IndexOf(x, '.');
            var through := Resolve(g, c, x[..i]);
            IsReference(g, through) ==>
              Resolve(g, through.value.kind.cls, s[i + 1..]) == Resolve(g, Resolve(g, c, x).value.kind.cls, y)
    decreases |x| + |y|, 0
  {
    hide Text.IndexOf, Resolve, Find;
    var s, i := x + "$" + y, Text.IndexOf(x, '.');
    var through := Resolve(g, c, x[..i]);
    if IsReference(g, through) {
      ResolveStep(g, c, x);
      assert s[i + 1..] == x[i + 1..] + "$" + y;
      ResolveWithin(g, through.value.kind.cls, x[i + 1..], y);
    }
  }

  /** The first step of x$y ends in y. */
  lemma {:induction false} WithinRight(g: Model, c: string, x: string, y: string)
    requires '$' !in x && IsStruct(g, Resolve(g, c, x)) && Text.IndexOf(y, '.') >= 0
    ensures var s, k := x + "$" + y, |x| + 1 + Text.IndexOf(y, '.');
            var through := Resolve(g, c, s[..k]);
            IsReference(g, through) ==>
              Resolve(g, through.value.kind.cls, s[k + 1..]) == Resolve(g, Resolve(g, c, x).value.kind.cls, y)
    decreases |x| + |y|, 0
  {
    hide Text.IndexOf, Resolve, Find;
    var s, j := x + "$" + y, Text.IndexOf(y, '.');
    assert s[..|x| + 1 + j] == x + "$" + y[..j] && s[|x| + 1 + j + 1..] == y[j + 1..];
    ResolveWithin(g, c, x, y[..j]);
    ResolveStep(g, Resolve(g, c, x).value.kind.cls, y);
  }

  /** The first dot of x$y. */
  lemma FirstDot(x: string, y: string)
    ensures var i, j := Text.IndexOf(x, '.'), Text.IndexOf(y, '.');
            Text.IndexOf(x + "$" + y, '.') == if i >= 0 then i else if j >= 0 then |x| + 1 + j else -1
    ensures var i := Text.IndexOf(x, '.'); i >= 0 ==> (x + "$" + y)[..i] == x[..i]
  {
    hide Text.IndexOf;
    var s, i, j := x + "$" + y, Text.IndexOf(x, '.'), Text.IndexOf(y, '.');
    assert s[|x|] == '$';
    assert forall k | 0 <= k < |s| && s[k] == '.' :: if k < |x| then x[k] == '.' else k > |x| && y[k - |x| - 1] == '.';
    if i >= 0 {
      assert s[i] == '.';
    } else if j >= 0 {
      assert s[|x| + 1 + j] == '.';
    }
  }

  /** a.rest: through the reference that c has under a, and nowhere otherwise. */
  lemma {:induction false} ResolveDottedExactly(g: Model, c: string, a: string, rest: string)
    requires WellNamed(g) && Plain(a)
    ensures var p := NearestReference(g, c, a);
            Resolve(g, c, a + "." + rest) == if p.Some? then Resolve(g, p.value.kind.cls, rest) else None
    decreases |rest|, Rank(g, c)
  {
    hide Text.IndexOf, WellNamed, Resolve;
    var s := a + "." + rest;
    Splits(a, '.', rest);
    assert s == a + ['.'] + rest;
    ResolvePlain(g, c, a);
    assert !Plain(s) by { assert s[|a|] == '.'; }
    NoSuchOwn(g, c, s);
    if c !in g.classes {
      OutsideNothing(g, c, s);
    } else {
      ResolveStep(g, c, s);
    }
    if c in g.classes && !IsReference(g, FindUp(g, c, a)) {
      FindIsOwn(g, c, s);
      DottedStruct(a, rest);
      if HasAncestor(g, c) {
        UpIsLower(g, c);
        ResolveDottedExactly(g, g.classes[c].ancestor, a, rest);
      }
      var dollar := Text.IndexOf(s, '$');
      if dollar >= 0 {
        WithinDotted(g, c, a, rest, dollar - |a| - 1);
      }
    }
  }

  /** The part of a.rest before its first dollar, where it is a struct, leads where a.rest leads. */
  lemma {:induction false} WithinDotted(g: Model, c: string, a: string, rest: string, i: nat)
    requires WellNamed(g) && Plain(a) && i < |rest| && rest[i] == '$' && '$' !in rest[..i]
    ensures var within, p := Resolve(g, c, a + "." + rest[..i]), NearestReference(g, c, a);
            IsStruct(g, within) ==> p.Some? && Resolve(g, within.value.kind.cls, rest[i + 1..]) == Resolve(g, p.value.kind.cls, rest)
    decreases |rest|, 0
  {
    ResolveDottedExactly(g, c, a, rest[..i]);
    var within, p := Resolve(g, c, a + "." + rest[..i]), NearestReference(g, c, a);
    if IsStruct(g, within) {
      assert rest == rest[..i] + "$" + rest[i + 1..];
      ResolveWithin(g, p.value.kind.cls, rest[..i], rest[i + 1..]);
    }
  }

  /** a$b: into the struct that c has under a, and nowhere otherwise. */
  lemma {:induction false} ResolveStructExactly(g: Model, c: string, a: string, b: string)
    requires WellNamed(g) && Plain(a) && Plain(b)
    ensures var p := NearestStruct(g, c, a);
            Resolve(g, c, a + "$" + b) == if p.Some? then FindUp(g, p.value.kind.cls, b) else None
    decreases Rank(g, c)
  {
    hide Text.IndexOf, WellNamed;
    var s := a + "$" + b;
    Splits(a, '$', b);
    assert s == a + ['$'] + b && '.' !in s;
    NoIndex(s);
    ResolvePlain(g, c, a);
    assert !Plain(s) by { assert s[|a|] == '$'; }
    NoSuchOwn(g, c, s);
    if c in g.classes {
      FindIsOwn(g, c, s);
      var p := FindUp(g, c, a);
      if IsStruct(g, p) {
        ResolvePlain(g, p.value.kind.cls, b);
      } else if HasAncestor(g, c) {
        UpIsLower(g, c);
        ResolveStructExactly(g, g.classes[c].ancestor, a, b);
      }
    }
  }

  /** Where nothing is shadowed, what c has under a name is the nearest property of that name. */
  lemma {:induction false} NearestIsFound(g: Model, c: string, a: string)
    requires NoShadowing(g)
    ensures NearestReference(g, c, a) == if IsReference(g, FindUp(g, c, a)) then FindUp(g, c, a) else None
    ensures NearestStruct(g, c, a) == if IsStruct(g, FindUp(g, c, a)) then FindUp(g, c, a) else None
    decreases Rank(g, c)
  {
    hide NoShadowing;
    if HasAncestor(g, c) {
      UpIsLower(g, c);
      SameUp(g, c, a);
      NearestIsFound(g, g.classes[c].ancestor, a);
    }
  }

  /** Then a.rest leads through the nearest reference, and nowhere otherwise. */
  lemma ResolveDotted(g: Model, c: string, a: string, rest: string)
    requires WellNamed(g) && NoShadowing(g) && Plain(a)
    ensures var p := FindUp(g, c, a);
            Resolve(g, c, a + "." + rest) == if IsReference(g, p) then Resolve(g, p.value.kind.cls, rest) else None
  {
    hide WellNamed, NoShadowing;
    NearestIsFound(g, c, a);
    ResolveDottedExactly(g, c, a, rest);
  }

  /** And a$b into the nearest struct, and nowhere otherwise. */
  lemma ResolveStruct(g: Model, c: string, a: string, b: string)
    requires WellNamed(g) && NoShadowing(g) && Plain(a) && Plain(b)
    ensures var p := FindUp(g, c, a);
            Resolve(g, c, a + "$" + b) == if IsStruct(g, p) then FindUp(g, p.value.kind.cls, b) else None
  {
    hide WellNamed, NoShadowing;
    NearestIsFound(g, c, a);
    ResolveStructExactly(g, c, a, b);
  }

  lemma NoIndex(s: string)
    requires '.' !in s
    ensures Text.IndexOf(s, '.') == -1
  {
  }
}
