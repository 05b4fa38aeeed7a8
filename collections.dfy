/** List comprehensions and nested `for` loops that collect into one list,
    stated once for any element types. */
module Collections {

  /** `[f(x) for x in xs]` */
  function MapSeq<A, B>(f: A -> B, xs: seq<A>): (r: seq<B>)
    ensures |r| == |xs|
  {
    if xs == [] then [] else MapSeq(f, xs[..|xs| - 1]) + [f(xs[|xs| - 1])]
  }

  lemma {:induction false} MapSeqIndex<A, B>(f: A -> B, xs: seq<A>, k: nat)
    requires k < |xs|
    ensures MapSeq(f, xs)[k] == f(xs[k])
  {
    if k < |xs| - 1 {
      MapSeqIndex(f, xs[..|xs| - 1], k);
    }
  }

  lemma {:induction false} MapSeqCons<A, B>(f: A -> B, xs: seq<A>)
    requires xs != []
    ensures MapSeq(f, xs) == [f(xs[0])] + MapSeq(f, xs[1..])
    decreases |xs|
  {
    var n := |xs|;
    if n > 1 {
      var front := xs[..n - 1];
      MapSeqCons(f, front);
      assert front[1..] == xs[1..][..n - 2];
      assert xs[1..][n - 2] == xs[n - 1];
    } else {
      assert xs[1..] == [];
    }
  }

  lemma MapSeqSnoc<A, B>(f: A -> B, xs: seq<A>, j: nat)
    requires j < |xs|
    ensures MapSeq(f, xs[..j + 1]) == MapSeq(f, xs[..j]) + [f(xs[j])]
  {
    assert xs[..j + 1][..j] == xs[..j];
  }

  lemma MapSeqAppendOne<A, B>(f: A -> B, xs: seq<A>, x: A)
    ensures MapSeq(f, xs + [x]) == MapSeq(f, xs) + [f(x)]
  {
    assert (xs + [x])[..|xs|] == xs;
  }

  /** Storing twice under one key keeps only the second value. */
  lemma MapStoreTwice<K, V>(m: map<K, V>, k: K, v: V, w: V)
    ensures m[k := v][k := w] == m[k := w]
  {
  }

  /** Removing a key and storing it again is storing it. */
  lemma MapRemoveStore<K, V>(m: map<K, V>, k: K, v: V)
    ensures (m - {k})[k := v] == m[k := v]
  {
  }

  lemma AppendAssoc<T>(a: seq<T>, b: seq<T>, c: seq<T>)
    ensures (a + b) + c == a + (b + c)
  {
  }

  /** The loop `for x in xs: out.append(f(x))`. */
  method MapLoop<A, B>(f: A -> B, xs: seq<A>) returns (out: seq<B>)
    ensures out == MapSeq(f, xs)
  {
    out := [];
    var i := 0;
    while i < |xs|
      invariant 0 <= i <= |xs|
      invariant out == MapSeq(f, xs[..i])
    {
      MapSeqSnoc(f, xs, i);
      out := out + [f(xs[i])];
      i := i + 1;
    }
    assert xs[..|xs|] == xs;
  }

  /** The list built by `for i in range(n): out += g(i)`. */
  function ConcatRange<B>(g: nat -> seq<B>, n: nat): seq<B> {
    if n == 0 then [] else ConcatRange(g, n - 1) + g(n - 1)
  }

  lemma {:induction false} ConcatRangeMember<B>(g: nat -> seq<B>, n: nat, y: B)
    ensures y in ConcatRange(g, n) <==> exists i :: 0 <= i < n && y in g(i)
  {
    if n > 0 {
      ConcatRangeMember(g, n - 1, y);
      assert ConcatRange(g, n) == ConcatRange(g, n - 1) + g(n - 1);
      if y in g(n - 1) {
        assert 0 <= n - 1 < n && y in g(n - 1);
      }
      if exists i :: 0 <= i < n && y in g(i) {
        var i :| 0 <= i < n && y in g(i);
        if i < n - 1 {
          assert y in ConcatRange(g, n - 1);
        }
      }
    }
  }

  /** The list built by `for x in xs: out += f(x)`. */
  function ConcatMap<A, B>(f: A -> seq<B>, xs: seq<A>): seq<B> {
    if xs == [] then [] else ConcatMap(f, xs[..|xs| - 1]) + f(xs[|xs| - 1])
  }

  lemma ConcatMapSingle<A, B>(f: A -> seq<B>, x: A)
    ensures ConcatMap(f, [x]) == f(x)
  {
    assert [x][..0] == [];
  }

  lemma ConcatMapSnoc<A, B>(f: A -> seq<B>, xs: seq<A>, j: nat)
    requires j < |xs|
    ensures ConcatMap(f, xs[..j + 1]) == ConcatMap(f, xs[..j]) + f(xs[j])
  {
    assert xs[..j + 1][..j] == xs[..j];
  }

  /** Collecting over two lists one after the other. */
  lemma {:induction false} ConcatMapAppend<A, B>(f: A -> seq<B>, xs: seq<A>, ys: seq<A>)
    ensures ConcatMap(f, xs + ys) == ConcatMap(f, xs) + ConcatMap(f, ys)
    decreases |ys|
  {
    if ys == [] {
      assert xs + ys == xs;
    } else {
      var n := |ys| - 1;
      assert (xs + ys)[..|xs + ys| - 1] == xs + ys[..n];
      assert (xs + ys)[|xs + ys| - 1] == ys[n];
      ConcatMapAppend(f, xs, ys[..n]);
    }
  }

  /** An element is collected exactly when some item contributes it. */
  lemma {:induction false} ConcatMapMember<A, B>(f: A -> seq<B>, xs: seq<A>, y: B)
    ensures y in ConcatMap(f, xs) <==> exists k :: 0 <= k < |xs| && y in f(xs[k])
  {
    if xs != [] {
      var n := |xs| - 1;
      ConcatMapMember(f, xs[..n], y);
      if exists k :: 0 <= k < |xs| && y in f(xs[k]) {
        var k :| 0 <= k < |xs| && y in f(xs[k]);
        if k < n { assert xs[..n][k] == xs[k]; }
      }
      if exists k :: 0 <= k < n && y in f(xs[..n][k]) {
        var k :| 0 <= k < n && y in f(xs[..n][k]);
        assert xs[..n][k] == xs[k];
      }
    }
  }
}
