/** What makeInfluxList computes, as functions: which backlink sources are
    kept, the notes they resolve to, and the summaries built for them. */
module InfluxLists {

  import opened Seqs
  import opened Vault

  /** A backlink source is kept when it is not the focal note and the
      inclusion policy (isIncludableSource) accepts it. */
  predicate Kept(p: Path, focal: Path, includable: Path -> bool)
  {
    p != focal && includable(p)
  }

  /** The kept sources, in enumeration order (the `validPaths` loop). */
  function KeptPaths(keys: seq<Path>, focal: Path, includable: Path -> bool): seq<Path>
  {
    if keys == [] then []
    else
      var rest := KeptPaths(keys[..|keys| - 1], focal, includable);
      var p := keys[|keys| - 1];
      if Kept(p, focal, includable) then rest + [p] else rest
  }

  /** A path is kept exactly when it is a backlink key, differs from the
      focal path and is includable. */
  lemma {:induction false} KeptPathsMembers(keys: seq<Path>, focal: Path, includable: Path -> bool)
    ensures forall p :: p in KeptPaths(keys, focal, includable) <==>
                        p in keys && Kept(p, focal, includable)
  {
    if keys != [] {
      var init := keys[..|keys| - 1];
      KeptPathsMembers(init, focal, includable);
      assert keys == init + [keys[|keys| - 1]];
    }
  }

  /** The focal note never appears among its own sources. */
  lemma {:induction false} FocalNeverKept(keys: seq<Path>, focal: Path, includable: Path -> bool)
    ensures focal !in KeptPaths(keys, focal, includable)
  {
    KeptPathsMembers(keys, focal, includable);
  }

  /** The kept paths keep the enumeration order of the keys. */
  lemma {:induction false} KeptPathsInOrder(keys: seq<Path>, focal: Path, includable: Path -> bool)
    ensures IsSubsequence(KeptPaths(keys, focal, includable), keys)
  {
    if keys != [] {
      var init := keys[..|keys| - 1];
      var p := keys[|keys| - 1];
      var rest := KeptPaths(init, focal, includable);
      KeptPathsInOrder(init, focal, includable);
      if Kept(p, focal, includable) {
        assert (rest + [p])[..|rest|] == rest;
      } else if rest != [] && rest[|rest| - 1] == p {
        SubsequenceDropLast(rest, init);
        assert IsSubsequence(rest[..|rest| - 1], init);
      }
    }
  }

  /** Each key gives at most one kept path, however many references it holds:
      with distinct keys, a kept path occurs exactly once. */
  lemma {:induction false} KeptPathsOncePerKey(keys: seq<Path>, focal: Path, includable: Path -> bool, p: Path)
    requires Distinct(keys)
    ensures multiset(KeptPaths(keys, focal, includable))[p] ==
            if p in keys && Kept(p, focal, includable) then 1 else 0
  {
    if keys != [] {
      var init := keys[..|keys| - 1];
      var last := keys[|keys| - 1];
      assert keys == init + [last];
      assert Distinct(init) by {
        forall i, j | 0 <= i < j < |init| ensures init[i] != init[j] {
          assert init[i] == keys[i] && init[j] == keys[j];
        }
      }
      assert last !in init by {
        forall i | 0 <= i < |init| ensures init[i] != last { assert init[i] == keys[i]; }
      }
      KeptPathsOncePerKey(init, focal, includable, p);
    }
  }

  /** Narrowing the inclusion policy keeps a subsequence of the kept paths. */
  lemma {:induction false} NarrowingKeepsSubsequence(keys: seq<Path>, focal: Path, wide: Path -> bool, narrow: Path -> bool)
    requires forall p :: narrow(p) ==> wide(p)
    ensures IsSubsequence(KeptPaths(keys, focal, narrow), KeptPaths(keys, focal, wide))
    ensures |KeptPaths(keys, focal, narrow)| <= |KeptPaths(keys, focal, wide)|
  {
    var n, w := KeptPaths(keys, focal, narrow), KeptPaths(keys, focal, wide);
    if keys != [] {
      var init := keys[..|keys| - 1];
      var p := keys[|keys| - 1];
      var n', w' := KeptPaths(init, focal, narrow), KeptPaths(init, focal, wide);
      NarrowingKeepsSubsequence(init, focal, wide, narrow);
      if Kept(p, focal, narrow) {
        assert n == n' + [p] && w == w' + [p];
        assert n[..|n| - 1] == n' && w[..|w| - 1] == w';
      } else if Kept(p, focal, wide) {
        assert n == n' && w == w' + [p];
        assert w[..|w| - 1] == w';
        if n' != [] && n'[|n'| - 1] == p {
          SubsequenceDropLast(n', w');
        }
      }
    }
    SubsequenceLength(n, w);
  }

  /** `validPaths.map(getFileByPath)`. */
  function Resolve(api: Api, paths: seq<Path>): seq<File>
  {
    seq(|paths|, i requires 0 <= i < |paths| => api.getFileByPath(paths[i]))
  }

  /** One fan-out unit: an InlinkingFile for `f` once its summary is made,
      None when makeSummary rejects. */
  function Build(api: Api, focal: File, f: File): Option<InlinkingFile>
  {
    match api.makeSummary(f, focal)
    case None => None
    case Some(s) => Some(InlinkingFile(f, s))
  }

  /** Every unit of the fan-out succeeds (Promise.all resolves). */
  predicate AllBuilt(api: Api, focal: File, files: seq<File>)
  {
    forall f :: f in files ==> api.makeSummary(f, focal).Some?
  }

  /** The InlinkingFiles in enumeration order: when every unit succeeds, the
      list holds exactly what each unit builds on its own, position by position. */
  function Built(api: Api, focal: File, files: seq<File>): (r: seq<InlinkingFile>)
    requires AllBuilt(api, focal, files)
    ensures |r| == |files|
    ensures forall i :: 0 <= i < |files| ==> Build(api, focal, files[i]) == Some(r[i])
  {
    seq(|files|, i requires 0 <= i < |files| => InlinkingFile(files[i], api.makeSummary(files[i], focal).value))
  }

  /** Whether every unit succeeds does not depend on the order of the units. */
  lemma AllBuiltPermutation(api: Api, focal: File, a: seq<File>, b: seq<File>)
    requires multiset(a) == multiset(b)
    ensures AllBuilt(api, focal, a) <==> AllBuilt(api, focal, b)
  {
    SameMultisetSameElements(a, b);
    if AllBuilt(api, focal, a) {
      forall i | 0 <= i < |b| ensures Build(api, focal, b[i]).Some? {
        assert b[i] in a;
        var j :| 0 <= j < |a| && a[j] == b[i];
      }
    }
    if AllBuilt(api, focal, b) {
      forall i | 0 <= i < |a| ensures Build(api, focal, a[i]).Some? {
        assert a[i] in b;
        var j :| 0 <= j < |b| && b[j] == a[i];
      }
    }
  }

  lemma BuiltConcat(api: Api, focal: File, a: seq<File>, b: seq<File>)
    requires AllBuilt(api, focal, a + b)
    ensures AllBuilt(api, focal, a) && AllBuilt(api, focal, b)
    ensures Built(api, focal, a + b) == Built(api, focal, a) + Built(api, focal, b)
  {
    assert AllBuilt(api, focal, a) by {
      forall i | 0 <= i < |a| ensures Build(api, focal, a[i]).Some? { assert a[i] == (a + b)[i]; }
    }
    assert AllBuilt(api, focal, b) by {
      forall i | 0 <= i < |b| ensures Build(api, focal, b[i]).Some? { assert b[i] == (a + b)[|a| + i]; }
    }
  }

  /** One more completed unit extends the enumeration-order list by its InlinkingFile. */
  lemma BuiltAppend(api: Api, focal: File, done: seq<File>, f: File)
    ensures AllBuilt(api, focal, done + [f]) <==> AllBuilt(api, focal, done) && api.makeSummary(f, focal).Some?
    ensures AllBuilt(api, focal, done + [f]) ==>
              Built(api, focal, done + [f]) == Built(api, focal, done) + [InlinkingFile(f, api.makeSummary(f, focal).value)]
  {
    assert forall g :: g in done + [f] <==> g in done || g == f;
  }

  /** Taking one unit out of the middle of a list of successful units. */
  lemma BuiltRemoveAt(api: Api, focal: File, b: seq<File>, k: nat)
    requires k < |b| && AllBuilt(api, focal, b)
    ensures AllBuilt(api, focal, b[..k] + b[k + 1..])
    ensures multiset(Built(api, focal, b)) ==
            multiset{Build(api, focal, b[k]).value} + multiset(Built(api, focal, b[..k] + b[k + 1..]))
  {
    var p, q, x := b[..k], b[k + 1..], b[k];
    assert b == p + ([x] + q);
    BuiltConcat(api, focal, p, [x] + q);
    BuiltConcat(api, focal, [x], q);
    var y := Build(api, focal, x).value;
    assert Built(api, focal, [x]) == [y];
    var bp, bq := Built(api, focal, p), Built(api, focal, q);
    assert Built(api, focal, b) == bp + ([y] + bq);
    assert multiset(Built(api, focal, b)) == multiset(bp) + multiset{y} + multiset(bq);
    assert AllBuilt(api, focal, p + q) by {
      forall f | f in p + q ensures api.makeSummary(f, focal).Some? { assert f in b; }
    }
    BuiltConcat(api, focal, p, q);
    assert multiset(Built(api, focal, p + q)) == multiset(bp) + multiset(bq);
  }

  /** Summaries collected in any completion order are a permutation of the
      enumeration-order list. */
  lemma {:induction false} BuiltPermutation(api: Api, focal: File, a: seq<File>, b: seq<File>)
    requires multiset(a) == multiset(b)
    requires AllBuilt(api, focal, a)
    ensures AllBuilt(api, focal, b)
    ensures multiset(Built(api, focal, a)) == multiset(Built(api, focal, b))
    decreases |a|
  {
    AllBuiltPermutation(api, focal, a, b);
    if a != [] {
      var x, a' := a[0], a[1..];
      assert x in multiset(b);
      var k :| 0 <= k < |b| && b[k] == x;
      var b' := b[..k] + b[k + 1..];
      PermutationTail(a, b, k);
      BuiltRemoveAt(api, focal, a, 0);
      assert a[..0] + a[1..] == a';
      BuiltRemoveAt(api, focal, b, k);
      BuiltPermutation(api, focal, a', b');
      var y := multiset{Build(api, focal, x).value};
      var ra, rb := multiset(Built(api, focal, a')), multiset(Built(api, focal, b'));
      assert multiset(Built(api, focal, a)) == y + ra;
      assert multiset(Built(api, focal, b)) == y + rb;
    }
  }

  /** What the next makeInfluxList publishes for `focal` in the current vault,
      in enumeration order; None when some summary rejects. */
  function InfluxList(api: Api, focal: File): Option<seq<InlinkingFile>>
  {
    var files := Resolve(api, KeptPaths(Keys(api.getBacklinks(focal).data), focal.path, api.isIncludableSource));
    if AllBuilt(api, focal, files) then Some(Built(api, focal, files)) else None
  }

  /** The published list has one InlinkingFile per kept path, for that path's
      note, and is empty when no source is kept. */
  lemma {:induction false} InfluxListShape(api: Api, focal: File)
    ensures var kept := KeptPaths(Keys(api.getBacklinks(focal).data), focal.path, api.isIncludableSource);
            && (kept == [] ==> InfluxList(api, focal) == Some([]))
            && (InfluxList(api, focal).Some? ==>
                  && |InfluxList(api, focal).value| == |kept|
                  && forall i :: 0 <= i < |kept| ==>
                       && InfluxList(api, focal).value[i].file == api.getFileByPath(kept[i])
                       && api.makeSummary(api.getFileByPath(kept[i]), focal) == Some(InfluxList(api, focal).value[i].summary))
  {
    var kept := KeptPaths(Keys(api.getBacklinks(focal).data), focal.path, api.isIncludableSource);
    var files := Resolve(api, kept);
    if kept == [] {
      assert AllBuilt(api, focal, files);
      assert Built(api, focal, files) == [];
    }
  }
}
