/** SimpleFileStorage: a file is stored under its own name or, if that is taken, under the
    first free numbered variant, so that no stored file is ever overwritten. */
module FileStorage {
  import Text

  type Content = seq<int>

  /** The i-th name that is tried: the number goes before the last dot. */
  function Candidate(fn: string, i: nat): string {
    if i == 0 then fn
    else
      var dot := Text.LastIndexOf(fn, '.');
      if dot >= 0 then fn[..dot] + "(" + Text.Decimal(i) + ")" + fn[dot..] else fn + "(" + Text.Decimal(i) + ")"
  }

  /** What surrounds the number. */
  lemma CandidateParts(fn: string, i: nat) returns (base: string, tail: string)
    requires i > 0
    ensures base + tail == fn && Candidate(fn, i) == base + "(" + Text.Decimal(i) + ")" + tail
    ensures var dot := Text.LastIndexOf(fn, '.'); |base| == if dot >= 0 then dot else |fn|
  {
    var dot := Text.LastIndexOf(fn, '.');
    base, tail := if dot >= 0 then fn[..dot] else fn, if dot >= 0 then fn[dot..] else "";
  }

  lemma MiddleOf(a: string, x: string, y: string, t: string)
    requires a + "(" + x + ")" + t == a + "(" + y + ")" + t
    ensures x == y
  {
    var s, r := a + "(" + x + ")" + t, a + "(" + y + ")" + t;
    assert |s| == |r|;
    assert s[|a| + 1..|a| + 1 + |x|] == x && r[|a| + 1..|a| + 1 + |y|] == y;
  }

  /** No name is tried twice. */
  lemma CandidatesDistinct(fn: string, i: nat, j: nat)
    requires Candidate(fn, i) == Candidate(fn, j)
    ensures i == j
  {
    if i > 0 && j > 0 {
      hide Candidate, Text.Decimal, Text.LastIndexOf;
      var a, t := CandidateParts(fn, i);
      var b, u := CandidateParts(fn, j);
      assert a == fn[..|a|] && b == fn[..|b|] && t == fn[|a|..] && u == fn[|b|..];
      MiddleOf(a, Text.Decimal(i), Text.Decimal(j), t);
      Text.DecimalInjective(i, j);
    } else if i > 0 {
      var a, t := CandidateParts(fn, i);
    } else if j > 0 {
      var b, u := CandidateParts(fn, j);
    }
  }

  /** The names tried before the i-th. */
  ghost function Tried(wd: string, fn: string, i: nat): set<string> {
    if i == 0 then {} else Tried(wd, fn, i - 1) + {wd + Candidate(fn, i - 1)}
  }

  lemma {:induction false} TriedExact(wd: string, fn: string, i: nat, k: nat)
    ensures wd + Candidate(fn, k) in Tried(wd, fn, i) <==> k < i
  {
    if i > 0 {
      TriedExact(wd, fn, i - 1, k);
      if wd + Candidate(fn, k) == wd + Candidate(fn, i - 1) {
        assert (wd + Candidate(fn, k))[|wd|..] == Candidate(fn, k);
        assert (wd + Candidate(fn, i - 1))[|wd|..] == Candidate(fn, i - 1);
        CandidatesDistinct(fn, k, i - 1);
      }
    }
  }

  /** k is the first number whose name is free. */
  ghost predicate FirstFree(files: map<string, Content>, wd: string, fn: string, k: nat) {
    wd + Candidate(fn, k) !in files && forall j | 0 <= j < k :: wd + Candidate(fn, j) in files
  }

  /** The storage: the contents of the files by their path below the root. */
  class SimpleFileStorage {
    var files: map<string, Content>

    constructor ()
      ensures files == map[]
    {
      files := map[];
    }

    /** getDest: the search ends for every directory, since each name that is taken is another
        file of it. */
    method GetDest(wd: string, fn: string) returns (dest: string)
      ensures dest !in files
      ensures exists k :: FirstFree(files, wd, fn, k) && dest == wd + Candidate(fn, k)
    {
      var i := 0;
      dest := wd + fn;
      while dest in files
        invariant dest == wd + Candidate(fn, i)
        invariant forall j | 0 <= j < i :: wd + Candidate(fn, j) in files
        invariant Tried(wd, fn, i) <= files.Keys
        decreases files.Keys - Tried(wd, fn, i)
      {
        TriedExact(wd, fn, i, i);
        ghost var before := Tried(wd, fn, i);
        i := i + 1;
        assert Tried(wd, fn, i) == before + {dest};
        var nfn;
        if '.' in fn {
          var dot := Text.LastIndexOf(fn, '.');
          nfn := fn[..dot] + "(" + Text.Decimal(i) + ")" + fn[dot..];
        } else {
          nfn := fn + "(" + Text.Decimal(i) + ")";
        }
        dest := wd + nfn;
      }
      assert FirstFree(files, wd, fn, i);
    }

    /** Accept: a new path, holding the content; everything else stays. */
    method Accept(wd: string, fn: string, content: Content) returns (id: string)
      modifies this
      ensures id !in old(files) && files == old(files)[id := content]
      ensures exists k :: FirstFree(old(files), wd, fn, k) && id == wd + Candidate(fn, k)
    {
      id := GetDest(wd, fn);
      files := files[id := content];
    }

    /** Any sequence of uploads: every file stored before keeps its content, and each upload is
        found under its own id. */
    method AcceptAll(uploads: seq<(string, string, Content)>) returns (ids: seq<string>)
      modifies this
      ensures |ids| == |uploads|
      ensures forall f | f in old(files) :: f in files && files[f] == old(files)[f]
      ensures forall i | 0 <= i < |ids| :: ids[i] !in old(files) && ids[i] in files && files[ids[i]] == uploads[i].2
      ensures forall i, j | 0 <= i < j < |ids| :: ids[i] != ids[j]
    {
      ids := [];
      for i := 0 to |uploads|
        invariant |ids| == i
        invariant forall f | f in old(files) :: f in files && files[f] == old(files)[f]
        invariant forall j | 0 <= j < i :: ids[j] !in old(files) && ids[j] in files && files[ids[j]] == uploads[j].2
        invariant forall j, k | 0 <= j < k < i :: ids[j] != ids[k]
      {
        var id := Accept(uploads[i].0, uploads[i].1, uploads[i].2);
        ids := ids + [id];
      }
    }
  }

  /** Some candidate is free in every directory: there are more candidates than files. */
  lemma {:induction false} TriedCount(wd: string, fn: string, i: nat)
    ensures |Tried(wd, fn, i)| == i
  {
    if i > 0 {
      TriedCount(wd, fn, i - 1);
      TriedExact(wd, fn, i - 1, i - 1);
    }
  }

  lemma {:induction false} TriedTaken(files: map<string, Content>, wd: string, fn: string, i: nat)
    requires forall k | 0 <= k < i :: wd + Candidate(fn, k) in files
    ensures Tried(wd, fn, i) <= files.Keys
  {
    if i > 0 {
      TriedTaken(files, wd, fn, i - 1);
    }
  }

  /** The search needs at most as many steps as there are files. */
  lemma FreeWithinCount(files: map<string, Content>, wd: string, fn: string, k: nat)
    requires FirstFree(files, wd, fn, k)
    ensures k <= |files|
  {
    TriedTaken(files, wd, fn, k);
    TriedCount(wd, fn, k);
    Smaller(Tried(wd, fn, k), files.Keys);
  }

  lemma {:induction false} Smaller(a: set<string>, b: set<string>)
    requires a <= b
    ensures |a| <= |b|
  {
    assert |b - a| == |b| - |a|;
  }
}
