/** The repository of class metas: it links every class with its ancestor and its direct
    descendants, and lists all descendants of a class. Classes are known by their names. */
module MetaRepository {
  import opened Wrappers
  import Listing

  /** A class file; valid says that the file passes validation. */
  datatype StoredClass = StoredClass(ancestor: string, valid: bool)

  datatype StructMeta = StructMeta(plain: StoredClass, anc: Option<string>, descendants: seq<string>)

  type Structs = map<string, StructMeta>

  /** Ancestors lead nowhere but up. */
  ghost predicate Ranked(structs: Structs, rank: map<string, nat>) {
    forall n {:trigger structs[n].anc} | n in structs && structs[n].anc.Some? :: n in rank && structs[n].anc.value in rank && rank[structs[n].anc.value] < rank[n]
  }

  /** The ancestor and descendants links are inverses of each other. */
  ghost predicate Linked(structs: Structs) {
    && (forall n | n in structs && structs[n].anc.Some? :: structs[n].anc.value in structs && n in structs[structs[n].anc.value].descendants)
    && (forall a, n | a in structs && n in structs[a].descendants :: n in structs && structs[n].anc == Some(a))
    && (forall a | a in structs :: Listing.Distinct(structs[a].descendants))
  }

  // The walk up.

  /** StructMeta.checkAncestor: the class of that name on the way up from n, n included. */
  ghost function CheckAncestor(structs: Structs, rank: map<string, nat>, n: string, name: string): Option<string>
    requires Ranked(structs, rank)
    decreases if n in rank then rank[n] + 1 else 0
  {
    if n == name then Some(n)
    else if n in structs && structs[n].anc.Some? then CheckAncestor(structs, rank, structs[n].anc.value, name)
    else None
  }

  // The walk down.

  ghost function Deeper(rank: map<string, nat>, n: string): set<string> {
    set m | m in rank && n in rank && rank[m] > rank[n]
  }

  lemma ChildIsDeeper(structs: Structs, rank: map<string, nat>, a: string, n: string)
    requires Ranked(structs, rank) && Linked(structs) && a in structs && n in structs[a].descendants
    ensures n in structs && Deeper(rank, n) < Deeper(rank, a)
  {
    assert structs[n].anc == Some(a);
    assert n in Deeper(rank, a) && n !in Deeper(rank, n);
  }

  /** fillDescendants: first the classes themselves, then what is below each of them. */
  ghost function Filled(structs: Structs, rank: map<string, nat>, a: string): seq<string>
    requires Ranked(structs, rank) && Linked(structs) && a in structs
    decreases Deeper(rank, a), 0
  {
    forall n | n in structs[a].descendants ensures n in structs && Deeper(rank, n) < Deeper(rank, a) {
      ChildIsDeeper(structs, rank, a, n);
    }
    structs[a].descendants + FilledAll(structs, rank, a, structs[a].descendants)
  }

  ghost function FilledAll(structs: Structs, rank: map<string, nat>, a: string, names: seq<string>): seq<string>
    requires Ranked(structs, rank) && Linked(structs) && a in structs
    requires forall n | n in names :: n in structs && Deeper(rank, n) < Deeper(rank, a)
    decreases Deeper(rank, a), 0, |names|
  {
    if names == [] then [] else FilledAll(structs, rank, a, names[..|names| - 1]) + Filled(structs, rank, names[|names| - 1])
  }

  /** The class a valid file declares as its ancestor, if that has a valid file too. */
  function AncestorOf(files: map<string, StoredClass>, n: string): Option<string>
    requires n in files
  {
    var a := files[n].ancestor;
    if a != "" && a in files && files[a].valid then Some(a) else None
  }

  /** One more class, linked with the ancestor it declares if that is there; its name joins the
      descendants of the ancestor, and nothing else changes. */
  ghost predicate IsLoaded(was: Structs, name: string, plain: StoredClass, structs: Structs) {
    var a := plain.ancestor;
    && structs.Keys == was.Keys + {name}
    && structs[name] == StructMeta(plain, if a != "" && a in was then Some(a) else None, [])
    && forall n | n in was && n != name ::
         structs[n] == if n == a && n != "" then was[n].(descendants := was[n].descendants + [name]) else was[n]
  }

  class IonMetaRepository {
    var structs: Structs
    ghost var rank: map<string, nat>

    ghost predicate Valid()
      reads this
    {
      Ranked(structs, rank) && Linked(structs) && forall n | n in structs :: n in rank
    }

    constructor ()
      ensures Valid() && structs == map[]
    {
      structs := map[];
      rank := map[];
    }

    /** Sets the ancestor of a class and adds the class to the ancestor's descendants. */
    method AssignAncestor(n: string)
      requires n in structs
      modifies this`structs
      ensures structs == AfterAssign(old(structs), n)
    {
      var a := structs[n].plain.ancestor;
      if a != "" {
        if a in structs {
          structs := structs[n := structs[n].(anc := Some(a))];
          structs := structs[a := structs[a].(descendants := structs[a].descendants + [n])];
        } else {
          structs := structs[n := structs[n].(anc := None)];
        }
      }
    }

    /** setMetaDirectory: all valid classes are loaded, then linked, in whatever order the
        directory and the map list them. */
    method SetMetaDirectory(files: map<string, StoredClass>, listing: seq<string>, order: seq<string>, ghost ranks: map<string, nat>)
      requires forall n :: n in listing <==> n in files
      requires Listing.Distinct(order) && forall n :: n in order <==> n in files && files[n].valid
      requires forall n | n in files :: n in ranks && (files[n].ancestor in files ==> files[n].ancestor in ranks && ranks[files[n].ancestor] < ranks[n])
      modifies this
      ensures Valid()
      ensures forall n :: n in structs <==> n in files && files[n].valid
      ensures forall n | n in structs :: structs[n].plain == files[n] && structs[n].anc == AncestorOf(files, n)
      ensures forall a, n | a in structs :: n in structs[a].descendants <==> n in files && files[n].valid && AncestorOf(files, n) == Some(a)
    {
      LoadAll(files, listing);
      rank := ranks;
      LinkAll(files, order);
      AllLinked(structs, order);
      LinkedAsDeclared(files, structs, order);
    }

    /** The loop over the class files. */
    method LoadAll(files: map<string, StoredClass>, listing: seq<string>)
      requires forall n | n in listing :: n in files
      modifies this`structs
      ensures forall n :: n in structs <==> n in listing && files[n].valid
      ensures forall n | n in structs :: structs[n] == StructMeta(files[n], None, [])
    {
      structs := map[];
      for i := 0 to |listing|
        invariant forall n :: n in structs <==> n in listing[..i] && files[n].valid
        invariant forall n | n in structs :: structs[n] == StructMeta(files[n], None, [])
      {
        var n := listing[i];
        assert n in listing && listing[..i + 1] == listing[..i] + [n];
        if n !in structs {
          if files[n].valid {
            structs := structs[n := StructMeta(files[n], None, [])];
          }
        }
      }
      assert listing[..|listing|] == listing;
    }

    /** The loop that assigns the ancestors. */
    method LinkAll(files: map<string, StoredClass>, order: seq<string>)
      requires Listing.Distinct(order) && forall n :: n in order <==> n in structs
      requires forall n | n in structs :: n in files && structs[n] == StructMeta(files[n], None, []) && files[n].ancestor != n
      modifies this`structs
      ensures structs.Keys == old(structs.Keys) && forall n | n in structs :: structs[n].plain == files[n]
      ensures PartlyLinked(structs, order)
    {
      hide AncestorIn, Names, Under;
      NothingLinked(structs);
      for i := 0 to |order|
        invariant structs.Keys == old(structs.Keys)
        invariant forall n | n in structs :: structs[n].plain == files[n]
        invariant PartlyLinked(structs, order[..i])
      {
        hide PartlyLinked;
        var n := order[i];
        assert n in order && order[..i + 1] == order[..i] + [n];
        assert n !in order[..i];
        AssignStep(structs, order[..i], n);
        AssignAncestor(n);
      }
      assert order[..|order|] == order;
    }

    /** Obtain: a class that is not there yet is loaded and linked; classes that were loaded
        before stay as they are. found is false where the source throws for want of a file. */
    method Obtain(name: string, files: map<string, StoredClass>) returns (r: Option<StructMeta>, found: bool)
      requires Valid() && (name in files ==> files[name].ancestor != name)
      modifies this
      ensures Valid()
      ensures found == (name in old(structs) || name in files)
      ensures name in old(structs) || name !in files || !files[name].valid ==> structs == old(structs)
      ensures name !in old(structs) && name in files && files[name].valid ==>
                IsLoaded(old(structs), name, files[name], structs)
      ensures r == if name in structs then Some(structs[name]) else None
    {
      found := true;
      if name !in structs {
        if name !in files {
          return None, false;
        }
        if files[name].valid {
          hide AfterAssign, Ranked, Linked, IsLoaded;
          ghost var ranks := ObtainValid(structs, rank, name, files[name]);
          ObtainLoads(structs, name, files[name]);
          structs := structs[name := StructMeta(files[name], None, [])];
          AssignAncestor(name);
          rank := ranks;
        }
      }
      r := if name in structs then Some(structs[name]) else None;
    }

    method FillDescendants(src: seq<string>, ghost a: string, result: seq<string>) returns (r: seq<string>)
      requires Valid() && a in structs && src == structs[a].descendants
      ensures r == result + Filled(structs, rank, a)
      decreases Deeper(rank, a)
    {
      hide Deeper, Ranked, Linked;
      r := result + src;
      forall n | n in src ensures n in structs && Deeper(rank, n) < Deeper(rank, a) {
        ChildIsDeeper(structs, rank, a, n);
      }
      for i := 0 to |src|
        invariant forall n | n in src[..i] :: n in structs && Deeper(rank, n) < Deeper(rank, a)
        invariant r == result + src + FilledAll(structs, rank, a, src[..i])
      {
        assert src[i] in src && src[..i + 1][..i] == src[..i];
        r := FillDescendants(structs[src[i]].descendants, src[i], r);
      }
      assert src[..|src|] == src;
    }

    /** List: the direct descendants, or all of them; None where the source throws because the
        class is not there. */
    method List(ancestor: string, direct: bool) returns (r: Option<seq<string>>)
      requires Valid()
      ensures r.Some? <==> ancestor in structs
      ensures r.Some? && direct ==> forall c :: c in r.value <==> c in structs && structs[c].anc == Some(ancestor)
      ensures r.Some? && !direct ==>
                forall c :: c in r.value <==> c in structs && c != ancestor && CheckAncestor(structs, rank, c, ancestor).Some?
      ensures r.Some? ==> Listing.Distinct(r.value)
    {
      if ancestor !in structs {
        return None;
      }
      ListIsExact(structs, rank, ancestor);
      if direct {
        return Some(structs[ancestor].descendants);
      }
      var all := FillDescendants(structs[ancestor].descendants, ancestor, []);
      r := Some(all);
    }
  }

  function AncestorIn(structs: Structs, plain: StoredClass): Option<string> {
    if plain.ancestor != "" && plain.ancestor in structs then Some(plain.ancestor) else None
  }

  function AfterAssign(structs: Structs, n: string): Structs
    requires n in structs
  {
    var a := structs[n].plain.ancestor;
    if a == "" then structs
    else if a in structs then
      var linked := structs[n := structs[n].(anc := Some(a))];
      linked[a := linked[a].(descendants := linked[a].descendants + [n])]
    else structs[n := structs[n].(anc := None)]
  }

  /** The classes in done are linked, the others are not. */
  ghost predicate PartlyLinked(structs: Structs, done: seq<string>) {
    && (forall n | n in structs && n in done :: structs[n].anc == AncestorIn(structs, structs[n].plain))
    && (forall n | n in structs && n !in done :: structs[n].anc == None)
    && (forall a | a in structs :: Listing.Distinct(structs[a].descendants))
    && (forall a, n {:trigger Names(structs, a, n)} | a in structs :: Names(structs, a, n) <==> Under(structs, done, a, n))
  }

  predicate Names(structs: Structs, a: string, n: string)
    requires a in structs
  {
    n in structs[a].descendants
  }

  predicate Under(structs: Structs, done: seq<string>, a: string, n: string) {
    n in structs && n in done && structs[n].anc == Some(a)
  }

  /** What assigning the ancestor of one class changes. */
  lemma AssignFacts(structs: Structs, n: string)
    requires n in structs && structs[n].anc == None && structs[n].plain.ancestor != n
    ensures var r, a := AfterAssign(structs, n), AncestorIn(structs, structs[n].plain);
            && r.Keys == structs.Keys
            && (forall m | m in structs :: r[m].plain == structs[m].plain)
            && r[n].anc == a && (forall m | m in structs && m != n :: r[m].anc == structs[m].anc)
            && (forall m | m in structs :: r[m].descendants == if a == Some(m) then structs[m].descendants + [n] else structs[m].descendants)
  {
  }

  lemma AssignStep(structs: Structs, done: seq<string>, n: string)
    requires PartlyLinked(structs, done) && n in structs && n !in done && structs[n].plain.ancestor != n
    ensures PartlyLinked(AfterAssign(structs, n), done + [n])
    ensures AfterAssign(structs, n).Keys == structs.Keys && forall m | m in structs :: AfterAssign(structs, n)[m].plain == structs[m].plain
  {
    hide AfterAssign;
    AssignFacts(structs, n);
    var r := AfterAssign(structs, n);
    forall m ensures m in done + [n] <==> m in done || m == n {
    }
    forall a | a in r ensures Listing.Distinct(r[a].descendants) {
      assert !Names(structs, a, n);
    }
    forall a, m | a in r ensures Names(r, a, m) <==> Under(r, done + [n], a, m) {
      assert Names(structs, a, m) <==> Under(structs, done, a, m);
    }
  }

  lemma NothingLinked(structs: Structs)
    requires forall n | n in structs :: structs[n].anc == None && structs[n].descendants == []
    ensures PartlyLinked(structs, [])
  {
  }

  lemma AllLinked(structs: Structs, order: seq<string>)
    requires PartlyLinked(structs, order) && forall n :: n in structs <==> n in order
    ensures Linked(structs)
  {
    forall n | n in structs && structs[n].anc.Some? ensures structs[n].anc.value in structs && n in structs[structs[n].anc.value].descendants {
      assert Names(structs, structs[n].anc.value, n) <==> Under(structs, order, structs[n].anc.value, n);
    }
    forall a, n | a in structs && n in structs[a].descendants ensures n in structs && structs[n].anc == Some(a) {
      assert Names(structs, a, n);
    }
  }

  /** The links are those the files declare. */
  lemma LinkedAsDeclared(files: map<string, StoredClass>, structs: Structs, order: seq<string>)
    requires PartlyLinked(structs, order) && forall n :: n in structs <==> n in order
    requires forall n :: n in structs <==> n in files && files[n].valid
    requires forall n | n in structs :: structs[n].plain == files[n]
    ensures forall n | n in structs :: structs[n].anc == AncestorOf(files, n)
    ensures forall a, n | a in structs :: n in structs[a].descendants <==> n in files && files[n].valid && AncestorOf(files, n) == Some(a)
  {
    forall a, n | a in structs ensures n in structs[a].descendants <==> n in files && files[n].valid && AncestorOf(files, n) == Some(a) {
      assert Names(structs, a, n) <==> Under(structs, order, a, n);
    }
  }

  /** c is declared below a: its ancestor is a, or declared below a. */
  ghost predicate DeclaredBelow(files: map<string, StoredClass>, rank: map<string, nat>, c: string, a: string)
    requires forall n | n in files :: n in rank && (files[n].ancestor in files ==> files[n].ancestor in rank && rank[files[n].ancestor] < rank[n])
    decreases if c in rank then rank[c] + 1 else 0
  {
    && c in files && files[c].valid && AncestorOf(files, c).Some?
    && (AncestorOf(files, c) == Some(a) || DeclaredBelow(files, rank, AncestorOf(files, c).value, a))
  }

  /** The walk up over the links meets a exactly if the files declare the class below it. */
  lemma {:induction false} WalkIsDeclared(files: map<string, StoredClass>, structs: Structs, rank: map<string, nat>, c: string, a: string)
    requires forall n | n in files :: n in rank && (files[n].ancestor in files ==> files[n].ancestor in rank && rank[files[n].ancestor] < rank[n])
    requires Ranked(structs, rank) && forall n :: n in structs <==> n in files && files[n].valid
    requires forall n | n in structs :: structs[n].anc == AncestorOf(files, n)
    requires a in structs
    ensures (c in structs && c != a && CheckAncestor(structs, rank, c, a).Some?) <==> DeclaredBelow(files, rank, c, a)
    decreases if c in rank then rank[c] + 1 else 0
  {
    if c in structs && structs[c].anc.Some? {
      WalkIsDeclared(files, structs, rank, structs[c].anc.value, a);
      if c == a && DeclaredBelow(files, rank, c, a) {
        DeclaredIsShallower(files, rank, c, a);
      }
    }
  }

  lemma {:induction false} DeclaredIsShallower(files: map<string, StoredClass>, rank: map<string, nat>, c: string, a: string)
    requires forall n | n in files :: n in rank && (files[n].ancestor in files ==> files[n].ancestor in rank && rank[files[n].ancestor] < rank[n])
    requires DeclaredBelow(files, rank, c, a)
    ensures a in rank && c in rank && rank[a] < rank[c]
    decreases if c in rank then rank[c] + 1 else 0
  {
    if AncestorOf(files, c) != Some(a) {
      DeclaredIsShallower(files, rank, AncestorOf(files, c).value, a);
    }
  }

  lemma ObtainLinks(was: Structs, name: string, plain: StoredClass)
    requires Linked(was) && name !in was && plain.ancestor != name
    ensures Linked(AfterAssign(was[name := StructMeta(plain, None, [])], name))
  {
    hide AfterAssign;
    var loaded := was[name := StructMeta(plain, None, [])];
    AssignFacts(loaded, name);
    var r := AfterAssign(loaded, name);
    forall a | a in was ensures name !in was[a].descendants {
    }
    forall a | a in r ensures Listing.Distinct(r[a].descendants) {
    }
    forall n | n in r && r[n].anc.Some? ensures r[n].anc.value in r && n in r[r[n].anc.value].descendants {
      if n != name {
        assert n in was && was[n].anc == r[n].anc;
      }
    }
    forall a, n | a in r && n in r[a].descendants ensures n in r && r[n].anc == Some(a) {
      if n != name {
        assert a in was && n in was[a].descendants;
      }
    }
  }

  lemma ObtainLoads(was: Structs, name: string, plain: StoredClass)
    requires name !in was && plain.ancestor != name
    ensures IsLoaded(was, name, plain, AfterAssign(was[name := StructMeta(plain, None, [])], name))
  {
  }

  lemma ObtainRanks(was: Structs, rank: map<string, nat>, name: string, plain: StoredClass)
    requires Ranked(was, rank) && name !in was && plain.ancestor != name && forall n | n in was :: n in rank
    requires forall n | n in was && was[n].anc.Some? :: was[n].anc.value in was
    ensures var r := AfterAssign(was[name := StructMeta(plain, None, [])], name);
            var after := rank[name := if plain.ancestor in was then rank[plain.ancestor] + 1 else 0];
            Ranked(r, after) && forall n | n in r :: n in after
  {
    hide AfterAssign;
    AssignFacts(was[name := StructMeta(plain, None, [])], name);
  }

  lemma ObtainValid(was: Structs, rank: map<string, nat>, name: string, plain: StoredClass) returns (ranks: map<string, nat>)
    requires Ranked(was, rank) && Linked(was) && (forall n | n in was :: n in rank) && name !in was && plain.ancestor != name
    ensures var r := AfterAssign(was[name := StructMeta(plain, None, [])], name);
            Ranked(r, ranks) && Linked(r) && forall n | n in r :: n in ranks
  {
    hide AfterAssign, Ranked;
    ObtainLinks(was, name, plain);
    ObtainRanks(was, rank, name, plain);
    ranks := rank[name := if plain.ancestor in was then rank[plain.ancestor] + 1 else 0];
  }

  // Up and down agree.

  lemma {:induction false} AncestorsAreShallower(structs: Structs, rank: map<string, nat>, n: string, name: string)
    requires Ranked(structs, rank) && n in rank && CheckAncestor(structs, rank, n, name).Some?
    ensures name in rank && rank[name] <= rank[n] && (n != name ==> rank[name] < rank[n])
    decreases rank[n]
  {
    if n != name {
      AncestorsAreShallower(structs, rank, structs[n].anc.value, name);
    }
  }

  /** Two classes above the same one are above one another. */
  lemma {:induction false} AncestorsFormAChain(structs: Structs, rank: map<string, nat>, c: string, x: string, y: string)
    requires Ranked(structs, rank) && CheckAncestor(structs, rank, c, x).Some? && CheckAncestor(structs, rank, c, y).Some?
    ensures CheckAncestor(structs, rank, x, y).Some? || CheckAncestor(structs, rank, y, x).Some?
    decreases if c in rank then rank[c] + 1 else 0
  {
    if c != x && c != y {
      AncestorsFormAChain(structs, rank, structs[c].anc.value, x, y);
    }
  }

  /** Siblings have no descendant in common. */
  lemma SiblingsApart(structs: Structs, rank: map<string, nat>, a: string, x: string, y: string, c: string)
    requires Ranked(structs, rank) && Linked(structs) && a in structs && x in structs[a].descendants && y in structs[a].descendants && x != y
    ensures CheckAncestor(structs, rank, c, x).None? || CheckAncestor(structs, rank, c, y).None?
  {
    if CheckAncestor(structs, rank, c, x).Some? && CheckAncestor(structs, rank, c, y).Some? {
      AncestorsFormAChain(structs, rank, c, x, y);
      assert structs[x].anc == Some(a) && structs[y].anc == Some(a);
      if CheckAncestor(structs, rank, x, y).Some? {
        AncestorsAreShallower(structs, rank, a, y);
      } else {
        AncestorsAreShallower(structs, rank, a, x);
      }
    }
  }

  /** c is below a when it is a child of a or below one. */
  lemma {:induction false} BelowThroughChild(structs: Structs, rank: map<string, nat>, c: string, a: string)
    requires Ranked(structs, rank) && Linked(structs) && a in structs
    ensures (c in structs && c != a && CheckAncestor(structs, rank, c, a).Some?) <==>
              exists x :: x in structs[a].descendants && c in structs && CheckAncestor(structs, rank, c, x).Some?
    decreases if c in rank then rank[c] + 1 else 0
  {
    if c in structs && structs[c].anc.Some? {
      var up := structs[c].anc.value;
      BelowThroughChild(structs, rank, up, a);
      if c != a && CheckAncestor(structs, rank, c, a).Some? {
        if up == a {
          assert c in structs[a].descendants;
          assert CheckAncestor(structs, rank, c, c).Some?;
        } else {
          var x :| x in structs[a].descendants && CheckAncestor(structs, rank, up, x).Some?;
          assert CheckAncestor(structs, rank, c, x).Some? by {
            if c == x {
            } else {
            }
          }
        }
      }
    }
    forall x | x in structs[a].descendants && c in structs && CheckAncestor(structs, rank, c, x).Some?
      ensures c != a && CheckAncestor(structs, rank, c, a).Some? {
      ThroughChild(structs, rank, c, x, a);
    }
  }

  lemma {:induction false} ThroughChild(structs: Structs, rank: map<string, nat>, c: string, x: string, a: string)
    requires Ranked(structs, rank) && Linked(structs) && a in structs && x in structs[a].descendants
    requires c in rank && CheckAncestor(structs, rank, c, x).Some?
    ensures c != a && CheckAncestor(structs, rank, c, a).Some?
    decreases rank[c]
  {
    AncestorsAreShallower(structs, rank, c, x);
    assert structs[x].anc == Some(a) && rank[a] < rank[x];
    if c != x {
      ThroughChild(structs, rank, structs[c].anc.value, x, a);
    } else {
      assert CheckAncestor(structs, rank, a, a).Some?;
    }
  }

  /** List(a) holds exactly the other classes from which the walk up meets a, each once. */
  lemma {:induction false} ListIsExact(structs: Structs, rank: map<string, nat>, a: string)
    requires Ranked(structs, rank) && Linked(structs) && a in structs
    ensures forall c :: c in Filled(structs, rank, a) <==> c in structs && c != a && CheckAncestor(structs, rank, c, a).Some?
    ensures Listing.Distinct(Filled(structs, rank, a))
    decreases Deeper(rank, a), 0
  {
    var src := structs[a].descendants;
    forall n | n in src ensures n in structs && Deeper(rank, n) < Deeper(rank, a) {
      ChildIsDeeper(structs, rank, a, n);
    }
    BelowIsExact(structs, rank, a, src);
    var below := FilledAll(structs, rank, a, src);
    forall c ensures c in src + below <==> c in structs && c != a && CheckAncestor(structs, rank, c, a).Some? {
      BelowThroughChild(structs, rank, c, a);
      assert c in src ==> CheckAncestor(structs, rank, c, c).Some?;
      assert c in src + below <==> c in src || c in below;
    }
    forall i, j | 0 <= i < |src| && 0 <= j < |below| ensures src[i] != below[j] {
      assert src[i] in src && below[j] in below;
      var x :| x in src && x != below[j] && CheckAncestor(structs, rank, below[j], x).Some?;
      assert CheckAncestor(structs, rank, src[i], src[i]).Some?;
      if src[i] == below[j] {
        SiblingsApart(structs, rank, a, x, src[i], src[i]);
      }
    }
    Listing.DistinctConcat(src, below);
  }

  lemma {:induction false} BelowIsExact(structs: Structs, rank: map<string, nat>, a: string, names: seq<string>)
    requires Ranked(structs, rank) && Linked(structs) && a in structs && Listing.Distinct(names)
    requires forall n | n in names :: n in structs[a].descendants && n in structs && Deeper(rank, n) < Deeper(rank, a)
    ensures forall c :: c in FilledAll(structs, rank, a, names) <==>
                          c in structs && exists x :: x in names && x != c && CheckAncestor(structs, rank, c, x).Some?
    ensures Listing.Distinct(FilledAll(structs, rank, a, names))
    decreases Deeper(rank, a), 0, |names|
  {
    if names != [] {
      var front, last := names[..|names| - 1], names[|names| - 1];
      assert names == front + [last] && last in names && last !in front;
      forall n | n in front ensures n in names {
      }
      BelowIsExact(structs, rank, a, front);
      ListIsExact(structs, rank, last);
      assert FilledAll(structs, rank, a, names) == FilledAll(structs, rank, a, front) + Filled(structs, rank, last);
      hide Deeper, Ranked, Linked, CheckAncestor, Filled, FilledAll;
      var p, q := FilledAll(structs, rank, a, front), Filled(structs, rank, last);
      forall c ensures c in p + q <==> c in structs && exists x :: x in names && x != c && CheckAncestor(structs, rank, c, x).Some? {
        assert c in p + q <==> c in p || c in q;
        if exists x :: x in names && x != c && CheckAncestor(structs, rank, c, x).Some? {
          var x :| x in names && x != c && CheckAncestor(structs, rank, c, x).Some?;
          assert x in front || x == last;
        }
      }
      forall i, j | 0 <= i < |p| && 0 <= j < |q| ensures p[i] != q[j] {
        assert p[i] in p && q[j] in q;
        var x :| x in front && CheckAncestor(structs, rank, p[i], x).Some?;
        assert x in names;
        SiblingsApart(structs, rank, a, x, last, p[i]);
      }
      Listing.DistinctConcat(p, q);
    }
  }
}
