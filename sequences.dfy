/** Facts about sequences and multisets used by the route-ordering proofs. */
module Sequences {
  lemma CancelOne<T>(m: multiset<T>, n: multiset<T>, x: T)
    requires m + multiset{x} == n + multiset{x}
    ensures m == n
  {
    forall y ensures m[y] == n[y] {
      assert (m + multiset{x})[y] == m[y] + multiset{x}[y];
      assert (n + multiset{x})[y] == n[y] + multiset{x}[y];
    }
  }

  lemma MultisetMiddle<T>(u: seq<T>, x: T, v: seq<T>)
    ensures multiset(u + [x] + v) == multiset(u + v) + multiset{x}
  {
    assert multiset(u + [x] + v) == multiset(u) + multiset([x]) + multiset(v);
    assert multiset(u + v) == multiset(u) + multiset(v);
  }

  lemma SplitAt<T>(b: seq<T>, k: nat)
    requires k < |b|
    ensures b == b[..k] + [b[k]] + b[k + 1..]
  {
  }

  /** Removing the last element of `a` and an equal element of `b` keeps the
      two sequences permutations of each other. */
  lemma MultisetRemove<T>(a: seq<T>, b: seq<T>, k: nat)
    requires a != [] && multiset(a) == multiset(b)
    requires k < |b| && b[k] == a[|a| - 1]
    ensures multiset(a[..|a| - 1]) == multiset(b[..k] + b[k + 1..])
  {
    var n := |a| - 1;
    assert a == a[..n] + [a[n]];
    assert b == b[..k] + [b[k]] + b[k + 1..];
    MultisetMiddle(b[..k], b[k], b[k + 1..]);
    MultisetMiddle(a[..n], a[n], []);
    assert a[..n] + [] == a[..n];
    CancelOne(multiset(a[..n]), multiset(b[..k] + b[k + 1..]), a[n]);
  }

  function MapSeq<A, B>(f: A -> B, s: seq<A>): (r: seq<B>)
    ensures |r| == |s| && forall i :: 0 <= i < |s| ==> r[i] == f(s[i])
  {
    if s == [] then [] else [f(s[0])] + MapSeq(f, s[1..])
  }

  lemma MapSeqAppend<A, B>(f: A -> B, u: seq<A>, v: seq<A>)
    ensures MapSeq(f, u + v) == MapSeq(f, u) + MapSeq(f, v)
  {
  }

  /** Mapping, then taking out the image of element k, is mapping the
      sequence without element k. */
  lemma MapSeqRemoveAt<A, B>(f: A -> B, b: seq<A>, k: nat)
    requires k < |b|
    ensures multiset(MapSeq(f, b)) == multiset(MapSeq(f, b[..k] + b[k + 1..])) + multiset{f(b[k])}
  {
    SplitAt(b, k);
    assert MapSeq(f, [b[k]]) == [f(b[k])];
    MapSeqAppend(f, b[..k] + [b[k]], b[k + 1..]);
    MapSeqAppend(f, b[..k], [b[k]]);
    MapSeqAppend(f, b[..k], b[k + 1..]);
    MultisetMiddle(MapSeq(f, b[..k]), f(b[k]), MapSeq(f, b[k + 1..]));
  }

  /** Mapping over two permutations of each other gives permutations of each other. */
  lemma {:induction false} MapSeqPermutation<A, B>(f: A -> B, a: seq<A>, b: seq<A>)
    requires multiset(a) == multiset(b)
    ensures multiset(MapSeq(f, a)) == multiset(MapSeq(f, b))
    decreases |a|
  {
    if a == [] {
      assert |b| == |multiset(b)| == 0;
    } else {
      var n := |a| - 1;
      assert a[n] in multiset(b);
      var k :| 0 <= k < |b| && b[k] == a[n];
      MultisetRemove(a, b, k);
      MapSeqPermutation(f, a[..n], b[..k] + b[k + 1..]);
      MapSeqRemoveAt(f, b, k);
      MapSeqRemoveAt(f, a, n);
      assert a[..n] + a[n + 1..] == a[..n];
    }
  }

  /** Equal heads of two permutations leave permutations of the tails. */
  lemma TailsPermutation<T>(a: seq<T>, b: seq<T>)
    requires a != [] && b != [] && a[0] == b[0]
    requires multiset(a) == multiset(b)
    ensures multiset(a[1..]) == multiset(b[1..])
  {
    assert a == [a[0]] + a[1..] && b == [b[0]] + b[1..];
    assert multiset(a) == multiset{a[0]} + multiset(a[1..]);
    assert multiset(b) == multiset{b[0]} + multiset(b[1..]);
    forall y ensures multiset(a[1..])[y] == multiset(b[1..])[y] {
      assert multiset(a)[y] == multiset{a[0]}[y] + multiset(a[1..])[y];
      assert multiset(b)[y] == multiset{a[0]}[y] + multiset(b[1..])[y];
    }
  }

  /** When `f` is injective on `xs` up to `key`, so is its image. */
  lemma MapSeqKeysDistinct<A, B, K>(f: A -> B, key: B -> K, xs: seq<A>)
    requires forall a, b :: a in xs && b in xs && key(f(a)) == key(f(b)) ==> f(a) == f(b)
    ensures forall x, y :: x in MapSeq(f, xs) && y in MapSeq(f, xs) && key(x) == key(y) ==> x == y
  {
    var ys := MapSeq(f, xs);
    forall x, y | x in ys && y in ys && key(x) == key(y) ensures x == y {
      var i :| 0 <= i < |ys| && ys[i] == x;
      var j :| 0 <= j < |ys| && ys[j] == y;
      assert xs[i] in xs && xs[j] in xs;
    }
  }
}
