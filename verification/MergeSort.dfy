/** The in-place merge sort of scan/SystemList.cpp on an array of scan entries. */
module MergeSort {

  /** An entry of the scan list, named by its system and its place in it. */
  datatype Entry = Entry(sys: nat, idx: nat, freq: int)

  // ---- specification ----------------------------------------------------------------------------

  ghost predicate Sorted(es: seq<Entry>) {
    forall i, j :: 0 <= i < j < |es| ==> es[i].freq <= es[j].freq
  }

  /** The entries of one frequency, in their order. */
  ghost function Of(es: seq<Entry>, f: int): seq<Entry> {
    if es == [] then [] else (if es[0].freq == f then [es[0]] else []) + Of(es[1..], f)
  }

  /** The same entries, those of one frequency still in the order they were in. */
  ghost predicate StablePermutation(es: seq<Entry>, es': seq<Entry>) {
    forall f :: Of(es', f) == Of(es, f)
  }

  function Merge(xs: seq<Entry>, ys: seq<Entry>): seq<Entry>
    decreases |xs| + |ys|
  {
    if xs == [] then ys
    else if ys == [] then xs
    else if xs[0].freq <= ys[0].freq then [xs[0]] + Merge(xs[1..], ys)
    else [ys[0]] + Merge(xs, ys[1..])
  }

  lemma OfStep(es: seq<Entry>, f: int)
    requires es != []
    ensures Of(es, f) == (if es[0].freq == f then [es[0]] else []) + Of(es[1..], f)
  {
  }

  lemma {:induction false} OfConcat(xs: seq<Entry>, ys: seq<Entry>, f: int)
    ensures Of(xs + ys, f) == Of(xs, f) + Of(ys, f)
  {
    if xs == [] {
      assert xs + ys == ys && Of(xs, f) == [];
    } else {
      assert (xs + ys)[1..] == xs[1..] + ys && (xs + ys)[0] == xs[0];
      OfConcat(xs[1..], ys, f);
      OfStep(xs, f);
      OfStep(xs + ys, f);
      hide Of;
    }
  }

  lemma {:induction false} OfNone(es: seq<Entry>, f: int)
    requires forall i :: 0 <= i < |es| ==> es[i].freq != f
    ensures Of(es, f) == []
  {
    if es != [] { OfNone(es[1..], f); }
  }

  lemma {:induction false} MergeLength(xs: seq<Entry>, ys: seq<Entry>)
    ensures |Merge(xs, ys)| == |xs| + |ys|
    decreases |xs| + |ys|
  {
    if xs != [] && ys != [] {
      if xs[0].freq <= ys[0].freq { MergeLength(xs[1..], ys); } else { MergeLength(xs, ys[1..]); }
    }
  }

  ghost predicate AtLeast(es: seq<Entry>, f: int) { forall i :: 0 <= i < |es| ==> f <= es[i].freq }

  lemma {:induction false} MergeAtLeast(xs: seq<Entry>, ys: seq<Entry>, f: int)
    requires AtLeast(xs, f) && AtLeast(ys, f)
    ensures AtLeast(Merge(xs, ys), f)
    decreases |xs| + |ys|
  {
    if xs != [] && ys != [] {
      if xs[0].freq <= ys[0].freq { MergeAtLeast(xs[1..], ys, f); } else { MergeAtLeast(xs, ys[1..], f); }
    }
  }

  lemma {:induction false} MergeSorted(xs: seq<Entry>, ys: seq<Entry>)
    requires Sorted(xs) && Sorted(ys)
    ensures Sorted(Merge(xs, ys))
    decreases |xs| + |ys|
  {
    if xs != [] && ys != [] {
      if xs[0].freq <= ys[0].freq {
        MergeSorted(xs[1..], ys);
        MergeAtLeast(xs[1..], ys, xs[0].freq);
      } else {
        MergeSorted(xs, ys[1..]);
        MergeAtLeast(xs, ys[1..], ys[0].freq);
      }
    }
  }

  /** Merging sorted parts is stable: entries of one frequency come from the left part first. */
  lemma {:induction false} MergeOf(xs: seq<Entry>, ys: seq<Entry>, f: int)
    requires Sorted(xs) && Sorted(ys)
    ensures Of(Merge(xs, ys), f) == Of(xs, f) + Of(ys, f)
    decreases |xs| + |ys|
  {
    if xs != [] && ys != [] {
      OfStep(Merge(xs, ys), f);
      if xs[0].freq <= ys[0].freq {
        assert Merge(xs, ys) == [xs[0]] + Merge(xs[1..], ys) && Merge(xs, ys)[1..] == Merge(xs[1..], ys);
        MergeOf(xs[1..], ys, f);
        OfStep(xs, f);
        hide Of, Merge;
      } else {
        assert Merge(xs, ys) == [ys[0]] + Merge(xs, ys[1..]) && Merge(xs, ys)[1..] == Merge(xs, ys[1..]);
        MergeOf(xs, ys[1..], f);
        OfStep(ys, f);
        if ys[0].freq == f { OfNone(xs, f); }
        hide Of, Merge;
      }
    }
  }

  function Front(es: seq<Entry>): int { if es == [] then 0 else es[0].freq }

  /** The specification leaves no choice: there is one stable ascending arrangement of a list. */
  lemma {:induction false} StableSortUnique(es: seq<Entry>, es': seq<Entry>)
    requires Sorted(es) && Sorted(es') && StablePermutation(es, es')
    ensures es == es'
    decreases |es|
  {
    if es == [] {
      assert Of(es', Front(es')) == Of(es, Front(es'));
    } else {
      var f := es[0].freq;
      assert Of(es', f) == Of(es, f) != [];
      var g := es'[0].freq;
      assert Of(es', g) == Of(es, g);
      if g != f {
        FirstOf(es', f);
        OfNone(es, g);
      }
      assert es'[0] == Of(es', f)[0] == Of(es, f)[0] == es[0];
      forall h ensures Of(es'[1..], h) == Of(es[1..], h) {
        TailsAgree(es, es', h);
      }
      StableSortUnique(es[1..], es'[1..]);
    }
  }

  lemma TailsAgree(es: seq<Entry>, es': seq<Entry>, g: int)
    requires es != [] && es' != [] && es[0] == es'[0] && Of(es', g) == Of(es, g)
    ensures Of(es'[1..], g) == Of(es[1..], g)
  {
    if es[0].freq == g {
      assert Of(es, g)[1..] == Of(es[1..], g);
      assert Of(es', g)[1..] == Of(es'[1..], g);
    } else {
      assert Of(es, g) == Of(es[1..], g);
      assert Of(es', g) == Of(es'[1..], g);
    }
  }

  lemma FirstOf(es: seq<Entry>, f: int)
    requires Sorted(es) && Of(es, f) != [] && es[0].freq != f
    ensures es[0].freq < f
  {
    if f < es[0].freq { OfNone(es, f); }
  }

  // ---- the algorithm ----------------------------------------------------------------------------

  /** What is left to merge when i entries of one part and j of the other are in place. */
  ghost function Rest(xs: seq<Entry>, ys: seq<Entry>, i: nat, j: nat): seq<Entry>
    requires i <= |xs| && j <= |ys|
  {
    Merge(xs[i..], ys[j..])
  }

  lemma RestStep(xs: seq<Entry>, ys: seq<Entry>, i: nat, j: nat)
    requires i <= |xs| && j <= |ys|
    ensures i < |xs| && (j == |ys| || xs[i].freq <= ys[j].freq) ==>
        Rest(xs, ys, i, j) == [xs[i]] + Rest(xs, ys, i + 1, j)
    ensures j < |ys| && (i == |xs| || ys[j].freq < xs[i].freq) ==>
        Rest(xs, ys, i, j) == [ys[j]] + Rest(xs, ys, i, j + 1)
    ensures i == |xs| && j == |ys| ==> Rest(xs, ys, i, j) == []
  {
    if i < |xs| { assert xs[i..][1..] == xs[i + 1..] && xs[i..] == [xs[i]] + xs[i + 1..]; }
    if j < |ys| { assert ys[j..][1..] == ys[j + 1..] && ys[j..] == [ys[j]] + ys[j + 1..]; }
  }

  lemma PutNext(done: seq<Entry>, e: Entry, rest: seq<Entry>, rest': seq<Entry>, all: seq<Entry>)
    requires done + rest == all && rest == [e] + rest'
    ensures (done + [e]) + rest' == all
  {
  }

  /** Stores e behind the part a[l..k] already merged. */
  method Place(a: array<Entry>, l: nat, k: nat, e: Entry)
    requires l <= k < a.Length
    modifies a
    ensures a[..] == old(a[..])[k := e] && a[l..k + 1] == old(a[l..k]) + [e]
  {
    a[k] := e;
  }

  /** Merges the sorted a[l..m+1] and a[m+1..r+1] through two copies. */
  method MergeParts(a: array<Entry>, l: nat, m: nat, r: nat)
    requires l <= m < r < a.Length
    modifies a
    ensures a[l..r + 1] == Merge(old(a[l..m + 1]), old(a[m + 1..r + 1]))
    ensures a[..l] == old(a[..l]) && a[r + 1..] == old(a[r + 1..])
  {
    var n1, n2 := m - l + 1, r - m;
    var xs, ys := a[l..m + 1], a[m + 1..r + 1];
    ghost var all, before, behind := Rest(xs, ys, 0, 0), a[..l], a[r + 1..];
    assert all == Merge(xs, ys);
    MergeLength(xs, ys);
    hide Rest, Merge;
    var i, j, k := 0, 0, l;
    while i < n1 && j < n2
      invariant i <= n1 && j <= n2 && k == l + i + j
      invariant a[..l] == before && a[r + 1..] == behind
      invariant a[l..k] + Rest(xs, ys, i, j) == all
    {
      RestStep(xs, ys, i, j);
      ghost var done, rest := a[l..k], Rest(xs, ys, i, j);
      if xs[i].freq <= ys[j].freq {
        Place(a, l, k, xs[i]);
        i := i + 1;
      } else {
        Place(a, l, k, ys[j]);
        j := j + 1;
      }
      PutNext(done, a[k], rest, Rest(xs, ys, i, j), all);
      k := k + 1;
    }
    CopyRest(a, l, r, xs, ys, i, j, k);
  }

  /** The entries left of the one part, or of the other. */
  method CopyRest(a: array<Entry>, l: nat, r: nat, xs: seq<Entry>, ys: seq<Entry>, i0: nat, j0: nat, k0: nat)
    requires i0 <= |xs| && j0 <= |ys| && (i0 == |xs| || j0 == |ys|) && l <= r < a.Length
    requires k0 == l + i0 + j0 && l + |xs| + |ys| == r + 1
    modifies a
    ensures a[l..r + 1] == old(a[l..k0]) + Rest(xs, ys, i0, j0)
    ensures a[..l] == old(a[..l]) && a[r + 1..] == old(a[r + 1..])
  {
    var i, j, k := i0, j0, k0;
    ghost var all, before, behind := a[l..k0] + Rest(xs, ys, i0, j0), a[..l], a[r + 1..];
    hide Rest;
    while i < |xs|
      invariant i <= |xs| && j == j0 && k == l + i + j && (i == |xs| || j == |ys|)
      invariant a[..l] == before && a[r + 1..] == behind
      invariant a[l..k] + Rest(xs, ys, i, j) == all
    {
      RestStep(xs, ys, i, j);
      ghost var done, rest := a[l..k], Rest(xs, ys, i, j);
      Place(a, l, k, xs[i]);
      PutNext(done, a[k], rest, Rest(xs, ys, i + 1, j), all);
      i, k := i + 1, k + 1;
    }
    while j < |ys|
      invariant i == |xs| && j <= |ys| && k == l + i + j
      invariant a[..l] == before && a[r + 1..] == behind
      invariant a[l..k] + Rest(xs, ys, i, j) == all
    {
      RestStep(xs, ys, i, j);
      ghost var done, rest := a[l..k], Rest(xs, ys, i, j);
      Place(a, l, k, ys[j]);
      PutNext(done, a[k], rest, Rest(xs, ys, i, j + 1), all);
      j, k := j + 1, k + 1;
    }
    RestStep(xs, ys, i, j);
  }

  /** What one level of the sort does to its part of the list. */
  lemma MergedHalves(was: seq<Entry>, xs: seq<Entry>, ys: seq<Entry>, n: nat)
    requires n <= |was| && Sorted(xs) && Sorted(ys) && StablePermutation(was[..n], xs)
        && StablePermutation(was[n..], ys)
    ensures Sorted(Merge(xs, ys)) && StablePermutation(was, Merge(xs, ys))
  {
    hide Sorted, Merge, Of;
    MergeSorted(xs, ys);
    forall f ensures Of(Merge(xs, ys), f) == Of(was, f) {
      MergeOf(xs, ys, f);
      OfConcat(was[..n], was[n..], f);
      assert was == was[..n] + was[n..];
    }
  }

  lemma OneSorted(es: seq<Entry>)
    ensures |es| <= 1 ==> Sorted(es)
    ensures StablePermutation(es, es)
  {
  }

  lemma SameBehind(s: seq<Entry>, t: seq<Entry>, n: nat, i: nat, j: nat)
    requires n <= i <= j <= |s| == |t| && s[n..] == t[n..]
    ensures s[i..j] == t[i..j] && s[i..] == t[i..]
  {
    assert s[i..] == s[n..][i - n..] && t[i..] == t[n..][i - n..];
    assert s[i..j] == s[i..][..j - i] && t[i..j] == t[i..][..j - i];
  }

  lemma SameBefore(s: seq<Entry>, t: seq<Entry>, n: nat, i: nat, j: nat)
    requires i <= j <= n <= |s| == |t| && s[..n] == t[..n]
    ensures s[i..j] == t[i..j] && s[..j] == t[..j]
  {
    assert s[i..j] == s[..n][i..j] && t[i..j] == t[..n][i..j];
    assert s[..j] == s[..n][..j] && t[..j] == t[..n][..j];
  }

  lemma CutAt(s: seq<Entry>, l: nat, m: nat, r: nat)
    requires l <= m <= r <= |s|
    ensures s[l..r][..m - l] == s[l..m] && s[l..r][m - l..] == s[m..r]
  {
  }

  /** Sorts a[l..r+1] in place; r may be -1 for an empty array. */
  method Sort(a: array<Entry>, l: nat, r: int)
    requires -1 <= r < a.Length && l <= r + 1
    modifies a
    ensures Sorted(a[l..r + 1]) && StablePermutation(old(a[l..r + 1]), a[l..r + 1])
    ensures a[..l] == old(a[..l]) && a[r + 1..] == old(a[r + 1..])
    decreases r - l, 1
  {
    hide Sorted, StablePermutation, Of, Merge, Rest;
    OneSorted(a[l..r + 1]);
    if l < r {
      SortHalves(a, l, r);
    }
  }

  /** Sorts both halves and merges them. */
  method SortHalves(a: array<Entry>, l: nat, r: int)
    requires l < r < a.Length
    modifies a
    ensures Sorted(a[l..r + 1]) && StablePermutation(old(a[l..r + 1]), a[l..r + 1])
    ensures a[..l] == old(a[..l]) && a[r + 1..] == old(a[r + 1..])
    decreases r - l, 0
  {
    hide Sorted, StablePermutation, Of, Merge, Rest;
    var m := l + (r - l) / 2;
    ghost var was := a[..];
    Sort(a, l, m);
    ghost var half := a[..];
    SameBehind(half, was, m + 1, m + 1, r + 1);
    SameBehind(half, was, m + 1, r + 1, r + 1);
    Sort(a, m + 1, r);
    ghost var both := a[..];
    SameBefore(both, half, m + 1, l, m + 1);
    SameBefore(both, half, m + 1, 0, l);
    CutAt(was, l, m + 1, r + 1);
    MergedHalves(was[l..r + 1], both[l..m + 1], both[m + 1..r + 1], m + 1 - l);
    MergeParts(a, l, m, r);
  }
}
