/** Sequence helpers the update command relies on: order-preserving filtering
    (what appending inside a loop produces) and joining strings with a separator. */
module Seqs {

  /** `r` can be obtained from `s` by deleting elements, without reordering. */
  ghost predicate Subsequence<T>(r: seq<T>, s: seq<T>)
    decreases |s|
  {
    || r == []
    || (s != [] &&
        ((r[|r| - 1] == s[|s| - 1] && Subsequence(r[..|r| - 1], s[..|s| - 1]))
         || Subsequence(r, s[..|s| - 1])))
  }

  /** The elements of `s` that satisfy `keep`, in the order of `s`: the slice a
      loop builds by appending each kept element as it walks `s`. */
  function Filter<T>(s: seq<T>, keep: T -> bool): (r: seq<T>)
    ensures forall k :: 0 <= k < |r| ==> r[k] in s && keep(r[k])
    ensures forall k :: 0 <= k < |s| && keep(s[k]) ==> s[k] in r
    ensures |r| <= |s|
    decreases |s|
  {
    if s == [] then []
    else
      var prefix := Filter(s[..|s| - 1], keep);
      assert s == s[..|s| - 1] + [s[|s| - 1]];
      if keep(s[|s| - 1]) then prefix + [s[|s| - 1]] else prefix
  }

  /** Filtering one more element of `s` extends the filtered prefix by that
      element exactly when it is kept: one step of the appending loop. */
  lemma FilterStep<T>(s: seq<T>, i: nat, keep: T -> bool)
    requires i < |s|
    ensures Filter(s[..i + 1], keep) == Filter(s[..i], keep) + (if keep(s[i]) then [s[i]] else [])
  {
    assert s[..i + 1][..i] == s[..i];
  }

  /** The filtered sequence keeps the relative order of `s`. */
  lemma {:induction false} FilterIsSubsequence<T>(s: seq<T>, keep: T -> bool)
    ensures Subsequence(Filter(s, keep), s)
    decreases |s|
  {
    if s != [] {
      var r := Filter(s, keep);
      FilterIsSubsequence(s[..|s| - 1], keep);
      if keep(s[|s| - 1]) {
        assert r[..|r| - 1] == Filter(s[..|s| - 1], keep);
      }
    }
  }

  /** Every element that satisfies `keep` is kept as often as it occurs in `s`,
      every other element is dropped entirely. */
  lemma {:induction false} FilterCounts<T>(s: seq<T>, keep: T -> bool, x: T)
    ensures multiset(Filter(s, keep))[x] == if keep(x) then multiset(s)[x] else 0
    decreases |s|
  {
    if s != [] {
      var prefix, last := s[..|s| - 1], s[|s| - 1];
      FilterCounts(prefix, keep, x);
      var added := if keep(last) then [last] else [];
      assert Filter(s, keep) == Filter(prefix, keep) + added;
      assert multiset(Filter(s, keep)) == multiset(Filter(prefix, keep)) + multiset(added);
      assert s == prefix + [last];
      assert multiset(s) == multiset(prefix) + multiset{last};
    }
  }

  /** `f` applied to every element of `s`, in order. */
  function Map<T, U>(s: seq<T>, f: T -> U): (r: seq<U>)
    ensures |r| == |s|
    ensures forall k :: 0 <= k < |s| ==> r[k] == f(s[k])
  {
    seq(|s|, k requires 0 <= k < |s| => f(s[k]))
  }

  /** `xs` joined with `sep` between consecutive elements (strings.Join). */
  function Join(xs: seq<string>, sep: string): string
    decreases |xs|
  {
    if xs == [] then ""
    else if |xs| == 1 then xs[0]
    else xs[0] + sep + Join(xs[1..], sep)
  }

  /** Where the `k`-th element starts inside `Join(xs, sep)`. */
  function JoinOffset(xs: seq<string>, sep: string, k: nat): nat
    requires k < |xs|
    decreases k
  {
    if k == 0 then 0 else |xs[0]| + |sep| + JoinOffset(xs[1..], sep, k - 1)
  }

  /** Every element of `xs` appears verbatim in the joined string, at its offset. */
  lemma {:induction false} JoinListsEach(xs: seq<string>, sep: string, k: nat)
    requires k < |xs|
    ensures JoinOffset(xs, sep, k) + |xs[k]| <= |Join(xs, sep)|
    ensures Join(xs, sep)[JoinOffset(xs, sep, k)..JoinOffset(xs, sep, k) + |xs[k]|] == xs[k]
    decreases k
  {
    if k == 0 {
      if |xs| > 1 {
        assert Join(xs, sep) == xs[0] + (sep + Join(xs[1..], sep));
      }
    } else {
      JoinListsEach(xs[1..], sep, k - 1);
      var head := xs[0] + sep;
      var tail := Join(xs[1..], sep);
      assert Join(xs, sep) == head + tail;
      var off := JoinOffset(xs[1..], sep, k - 1);
      assert tail[off..off + |xs[k]|] == xs[k];
      assert (head + tail)[|head| + off..|head| + off + |xs[k]|] == tail[off..off + |xs[k]|];
    }
  }

  /** A slice inside the middle part of a concatenation is a slice of that part. */
  lemma SliceOfMiddle<T>(front: seq<T>, middle: seq<T>, back: seq<T>, from: nat, to: nat)
    requires from <= to <= |middle|
    ensures (front + middle + back)[|front| + from..|front| + to] == middle[from..to]
  {
    var whole := front + middle + back;
    assert forall i :: |front| + from <= i < |front| + to ==> whole[i] == middle[i - |front|];
  }
}
