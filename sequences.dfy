/**
 * Facts about building a list by appending, for each input in turn, the
 * zero or more outputs that input contributes — the shape of both batch
 * queries of the policy client.
 */
module Sequences {

  /** The outputs `f(x)` of every `x` in `xs`, concatenated in input order. */
  function FlatMap<A, B>(xs: seq<A>, f: A -> seq<B>): (ys: seq<B>)
  {
    if xs == [] then [] else f(xs[0]) + FlatMap(xs[1..], f)
  }

  /** `a` can be obtained from `b` by deleting elements, keeping the order of the rest. */
  predicate IsSubsequence<T(==)>(a: seq<T>, b: seq<T>)
    decreases |b|
  {
    a == [] || (b != [] && ((a[0] == b[0] && IsSubsequence(a[1..], b[1..])) || IsSubsequence(a, b[1..])))
  }

  /** Processing two batches one after the other gives the outputs of the first, then the second. */
  lemma {:induction false} FlatMapAppend<A, B>(xs: seq<A>, ys: seq<A>, f: A -> seq<B>)
    ensures FlatMap(xs + ys, f) == FlatMap(xs, f) + FlatMap(ys, f)
  {
    if xs == [] {
      assert xs + ys == ys;
    } else {
      assert (xs + ys)[1..] == xs[1..] + ys;
      FlatMapAppend(xs[1..], ys, f);
    }
  }

  /** An output is produced exactly when some input contributes it. */
  lemma {:induction false} FlatMapMember<A, B>(xs: seq<A>, f: A -> seq<B>, y: B)
    ensures y in FlatMap(xs, f) <==> exists i :: 0 <= i < |xs| && y in f(xs[i])
  {
    if xs != [] {
      FlatMapMember(xs[1..], f, y);
      if y in FlatMap(xs[1..], f) {
        var j :| 0 <= j < |xs[1..]| && y in f(xs[1..][j]);
        assert xs[1..][j] == xs[j + 1];
      }
      if exists i :: 0 <= i < |xs| && y in f(xs[i]) {
        var i :| 0 <= i < |xs| && y in f(xs[i]);
        if i > 0 {
          assert xs[1..][i - 1] == xs[i];
        }
      }
    }
  }

  /** When every input contributes at most one output, there are at most as many outputs as inputs. */
  lemma {:induction false} FlatMapLengthBound<A, B>(xs: seq<A>, f: A -> seq<B>)
    requires forall i :: 0 <= i < |xs| ==> |f(xs[i])| <= 1
    ensures |FlatMap(xs, f)| <= |xs|
  {
    if xs != [] {
      assert forall i :: 0 <= i < |xs[1..]| ==> xs[1..][i] == xs[i + 1];
      FlatMapLengthBound(xs[1..], f);
    }
  }

  /** When no input contributes anything, the result is empty (in particular for no input). */
  lemma {:induction false} FlatMapAllEmpty<A, B>(xs: seq<A>, f: A -> seq<B>)
    requires forall i :: 0 <= i < |xs| ==> f(xs[i]) == []
    ensures FlatMap(xs, f) == []
  {
    if xs != [] {
      assert forall i :: 0 <= i < |xs[1..]| ==> xs[1..][i] == xs[i + 1];
      FlatMapAllEmpty(xs[1..], f);
    }
  }

  /** Deleting an input that contributes nothing leaves the result unchanged. */
  lemma {:induction false} FlatMapDropEmpty<A, B>(xs: seq<A>, f: A -> seq<B>, i: nat)
    requires i < |xs| && f(xs[i]) == []
    ensures FlatMap(xs[..i] + xs[i + 1..], f) == FlatMap(xs, f)
  {
    assert xs == xs[..i] + ([xs[i]] + xs[i + 1..]);
    FlatMapAppend(xs[..i], [xs[i]] + xs[i + 1..], f);
    FlatMapAppend([xs[i]], xs[i + 1..], f);
    FlatMapAppend(xs[..i], xs[i + 1..], f);
    assert FlatMap([xs[i]], f) == f(xs[i]) + FlatMap([], f);
  }

  lemma {:induction false} SubsequenceExtendLeft<T>(x: seq<T>, y: seq<T>, h: seq<T>)
    requires IsSubsequence(x, y)
    ensures IsSubsequence(x, h + y)
  {
    if h != [] {
      SubsequenceExtendLeft(x, y, h[1..]);
      assert (h + y)[1..] == h[1..] + y;
    } else {
      assert h + y == y;
    }
  }

  lemma {:induction false} SubsequenceSharedPrefix<T>(x: seq<T>, y: seq<T>, h: seq<T>)
    requires IsSubsequence(x, y)
    ensures IsSubsequence(h + x, h + y)
  {
    if h != [] {
      SubsequenceSharedPrefix(x, y, h[1..]);
      assert (h + x)[1..] == h[1..] + x;
      assert (h + y)[1..] == h[1..] + y;
    } else {
      assert h + x == x && h + y == y;
    }
  }

  lemma {:induction false} SubsequenceSelf<T>(s: seq<T>)
    ensures IsSubsequence(s, s)
  {
    if s != [] {
      SubsequenceSelf(s[1..]);
    }
  }

  lemma {:induction false} SubsequenceConcat<T>(a: seq<T>, b: seq<T>, c: seq<T>, d: seq<T>)
    requires IsSubsequence(a, b) && IsSubsequence(c, d)
    ensures IsSubsequence(a + c, b + d)
    decreases |b|
  {
    if a == [] {
      assert a + c == c;
      SubsequenceExtendLeft(c, d, b);
    } else if a[0] == b[0] && IsSubsequence(a[1..], b[1..]) {
      SubsequenceConcat(a[1..], b[1..], c, d);
      assert (a + c)[1..] == a[1..] + c;
      assert (b + d)[1..] == b[1..] + d;
    } else {
      SubsequenceConcat(a, b[1..], c, d);
      assert (b + d)[1..] == b[1..] + d;
    }
  }

  /** Deleting inputs only deletes outputs: the remaining outputs keep their order. */
  lemma {:induction false} FlatMapSubsequence<A, B>(xs': seq<A>, xs: seq<A>, f: A -> seq<B>)
    requires IsSubsequence(xs', xs)
    ensures IsSubsequence(FlatMap(xs', f), FlatMap(xs, f))
    decreases |xs|
  {
    if xs' != [] {
      if xs'[0] == xs[0] && IsSubsequence(xs'[1..], xs[1..]) {
        FlatMapSubsequence(xs'[1..], xs[1..], f);
        SubsequenceSharedPrefix(FlatMap(xs'[1..], f), FlatMap(xs[1..], f), f(xs[0]));
      } else {
        FlatMapSubsequence(xs', xs[1..], f);
        SubsequenceExtendLeft(FlatMap(xs', f), FlatMap(xs[1..], f), f(xs[0]));
      }
    }
  }
}
