/** The plugin's `UniqueList`: a list that guarantees element uniqueness but
    keeps the order in which elements were first added
    (plugin/utils/__init__.py:5). Its implementation file is not part of this
    model; the contract is modelled as an order-preserving deduplication. */
module UniqueList {

  predicate NoDups<T(==)>(s: seq<T>) {
    forall i, j :: 0 <= i < j < |s| ==> s[i] != s[j]
  }

  /** `unique += xs`, or `list.append(x)` guarded by `x not in list`: each
      element of `xs` not present yet is appended, in order. */
  function Extend<T(==)>(acc: seq<T>, xs: seq<T>): (r: seq<T>)
    decreases |xs|
  {
    if xs == [] then acc else Extend(if xs[0] in acc then acc else acc + [xs[0]], xs[1..])
  }

  /** `UniqueList(xs)` */
  function Unique<T(==)>(xs: seq<T>): seq<T> {
    Extend([], xs)
  }

  /** Reference definition: the elements of `s` at the positions where they
      occur for the first time. */
  function FirstOccurrences<T(==)>(s: seq<T>): seq<T> {
    if s == [] then []
    else
      var p := s[..|s| - 1];
      FirstOccurrences(p) + (if s[|s| - 1] in p then [] else [s[|s| - 1]])
  }

  /** The index of the first occurrence of `x` in `s`. */
  function IndexOf<T(==)>(s: seq<T>, x: T): (i: nat)
    requires x in s
    ensures i < |s| && s[i] == x && x !in s[..i]
  {
    if s[0] == x then 0 else 1 + IndexOf(s[1..], x)
  }

  lemma IndexOfPrefix<T>(s: seq<T>, n: nat, x: T)
    requires n <= |s| && x in s[..n]
    ensures IndexOf(s, x) == IndexOf(s[..n], x)
  {
    var i, j := IndexOf(s, x), IndexOf(s[..n], x);
    assert forall k :: 0 <= k < i ==> s[k] != x by {
      forall k | 0 <= k < i ensures s[k] != x { assert s[..i][k] == s[k]; }
    }
    assert forall k :: 0 <= k < j ==> s[k] != x by {
      forall k | 0 <= k < j ensures s[k] != x { assert s[..n][..j][k] == s[k]; }
    }
    assert s[..n][j] == s[j];
  }

  lemma {:induction false} FirstOccurrencesElements<T>(s: seq<T>)
    ensures forall x :: x in FirstOccurrences(s) <==> x in s
  {
    if s != [] {
      var p := s[..|s| - 1];
      FirstOccurrencesElements(p);
      assert s == p + [s[|s| - 1]];
    }
  }

  lemma {:induction false} FirstOccurrencesNoDups<T>(s: seq<T>)
    ensures NoDups(FirstOccurrences(s))
  {
    if s != [] {
      var p := s[..|s| - 1];
      FirstOccurrencesNoDups(p);
      FirstOccurrencesElements(p);
    }
  }

  lemma {:induction false} FirstOccurrencesOrdered<T>(s: seq<T>)
    ensures forall x :: x in FirstOccurrences(s) ==> x in s
    ensures forall i, j :: 0 <= i < j < |FirstOccurrences(s)| ==>
      IndexOf(s, FirstOccurrences(s)[i]) < IndexOf(s, FirstOccurrences(s)[j])
  {
    FirstOccurrencesElements(s);
    if s != [] {
      var p := s[..|s| - 1];
      var q := FirstOccurrences(p);
      var r := FirstOccurrences(s);
      FirstOccurrencesOrdered(p);
      FirstOccurrencesElements(p);
      assert r[..|q|] == q;
      assert s[..|p|] == p;
      forall i, j | 0 <= i < j < |r| ensures IndexOf(s, r[i]) < IndexOf(s, r[j]) {
        assert r[i] == q[i] && q[i] in q;
        IndexOfPrefix(s, |p|, r[i]);
        if j < |q| {
          assert r[j] == q[j] && q[j] in q;
          IndexOfPrefix(s, |p|, r[j]);
        } else {
          assert r[j] == s[|s| - 1] && r[j] !in p;
        }
      }
    }
  }

  /** The reference definition has no duplicates, the same elements as its
      input, and lists them in the order of their first occurrence. */
  lemma FirstOccurrencesSpec<T>(s: seq<T>)
    ensures NoDups(FirstOccurrences(s))
    ensures forall x :: x in FirstOccurrences(s) <==> x in s
    ensures forall i, j :: 0 <= i < j < |FirstOccurrences(s)| ==>
      IndexOf(s, FirstOccurrences(s)[i]) < IndexOf(s, FirstOccurrences(s)[j])
  {
    FirstOccurrencesNoDups(s);
    FirstOccurrencesElements(s);
    FirstOccurrencesOrdered(s);
  }

  /** Extending the first occurrences of `s` by `ys` gives the first
      occurrences of `s + ys`. */
  lemma {:induction false} ExtendFirstOccurrences<T>(s: seq<T>, ys: seq<T>)
    ensures Extend(FirstOccurrences(s), ys) == FirstOccurrences(s + ys)
    decreases |ys|
  {
    if ys == [] {
      assert s + ys == s;
    } else {
      var s' := s + [ys[0]];
      var f := FirstOccurrences(s);
      var next := if ys[0] in f then f else f + [ys[0]];
      assert Extend(f, ys) == Extend(next, ys[1..]);
      FirstOccurrencesSnoc(s, ys[0]);
      assert next == FirstOccurrences(s');
      ExtendFirstOccurrences(s', ys[1..]);
      SnocTail(s, ys);
    }
  }

  lemma SnocTail<T>(s: seq<T>, ys: seq<T>)
    requires ys != []
    ensures s + [ys[0]] + ys[1..] == s + ys
  {
    assert ys == [ys[0]] + ys[1..];
  }

  lemma FirstOccurrencesSnoc<T>(s: seq<T>, x: T)
    ensures FirstOccurrences(s + [x]) == if x in FirstOccurrences(s) then FirstOccurrences(s) else FirstOccurrences(s) + [x]
  {
    FirstOccurrencesElements(s);
    assert (s + [x])[..|s|] == s;
  }

  /** `UniqueList(xs)` is exactly the first occurrences of `xs`. */
  lemma UniqueIsFirstOccurrences<T>(xs: seq<T>)
    ensures Unique(xs) == FirstOccurrences(xs)
  {
    ExtendFirstOccurrences([], xs);
    assert [] + xs == xs;
  }

  /** Uniqueness, the same elements, and first-occurrence order. */
  lemma UniqueSpec<T>(xs: seq<T>)
    ensures NoDups(Unique(xs))
    ensures forall x :: x in Unique(xs) <==> x in xs
    ensures forall i, j :: 0 <= i < j < |Unique(xs)| ==> IndexOf(xs, Unique(xs)[i]) < IndexOf(xs, Unique(xs)[j])
  {
    UniqueIsFirstOccurrences(xs);
    FirstOccurrencesSpec(xs);
  }

  /** Adding to a unique list in two steps is the same as building it from
      the concatenation. */
  lemma ExtendUnique<T>(xs: seq<T>, ys: seq<T>)
    ensures Extend(Unique(xs), ys) == Unique(xs + ys)
  {
    UniqueIsFirstOccurrences(xs);
    UniqueIsFirstOccurrences(xs + ys);
    ExtendFirstOccurrences(xs, ys);
  }

  /** Guarded appends keep the old list as a prefix, add every new element,
      and add nothing that was already present or twice. */
  lemma ExtendSpec<T>(acc: seq<T>, xs: seq<T>)
    ensures |acc| <= |Extend(acc, xs)| && Extend(acc, xs)[..|acc|] == acc
    ensures forall x :: x in Extend(acc, xs) <==> x in acc || x in xs
    ensures forall k :: |acc| <= k < |Extend(acc, xs)| ==> Extend(acc, xs)[k] !in acc
    ensures NoDups(Extend(acc, xs)[|acc|..])
  {
    ExtendPrefix(acc, xs);
    ExtendElements(acc, xs);
    ExtendFresh(acc, xs);
    ExtendNoDups(acc, xs);
  }

  lemma {:induction false} ExtendPrefix<T>(acc: seq<T>, xs: seq<T>)
    ensures |acc| <= |Extend(acc, xs)| && Extend(acc, xs)[..|acc|] == acc
    decreases |xs|
  {
    if xs != [] {
      var next := if xs[0] in acc then acc else acc + [xs[0]];
      ExtendPrefix(next, xs[1..]);
      var r := Extend(acc, xs);
      assert r[..|next|] == next;
      assert r[..|acc|] == next[..|acc|];
    }
  }

  lemma {:induction false} ExtendElements<T>(acc: seq<T>, xs: seq<T>)
    ensures forall x :: x in Extend(acc, xs) <==> x in acc || x in xs
    decreases |xs|
  {
    if xs != [] {
      var next := if xs[0] in acc then acc else acc + [xs[0]];
      ExtendElements(next, xs[1..]);
      assert forall x :: x in xs <==> x == xs[0] || x in xs[1..];
    }
  }

  lemma {:induction false} ExtendFresh<T>(acc: seq<T>, xs: seq<T>)
    ensures |acc| <= |Extend(acc, xs)|
    ensures forall k :: |acc| <= k < |Extend(acc, xs)| ==> Extend(acc, xs)[k] !in acc
    decreases |xs|
  {
    ExtendPrefix(acc, xs);
    if xs != [] {
      var next := if xs[0] in acc then acc else acc + [xs[0]];
      ExtendFresh(next, xs[1..]);
      ExtendPrefix(next, xs[1..]);
      var r := Extend(acc, xs);
      forall k | |acc| <= k < |r| ensures r[k] !in acc {
        if k < |next| {
          assert r[..|next|][k] == r[k];
        }
      }
    }
  }

  lemma {:induction false} ExtendNoDups<T>(acc: seq<T>, xs: seq<T>)
    ensures |acc| <= |Extend(acc, xs)|
    ensures NoDups(Extend(acc, xs)[|acc|..])
    decreases |xs|
  {
    ExtendPrefix(acc, xs);
    if xs != [] {
      var next := if xs[0] in acc then acc else acc + [xs[0]];
      ExtendNoDups(next, xs[1..]);
      ExtendPrefix(next, xs[1..]);
      ExtendFresh(next, xs[1..]);
      var r := Extend(acc, xs);
      assert r[..|next|] == next;
      forall i, j | |acc| <= i < j < |r| ensures r[i] != r[j] {
        if i >= |next| {
          assert r[|next|..][i - |next|] == r[i] && r[|next|..][j - |next|] == r[j];
        } else {
          assert r[i] == xs[0] && r[j] !in next;
        }
      }
    }
  }

  /** The unique list of a concatenation starts with the unique list of its
      first part. */
  lemma UniquePrefix<T>(xs: seq<T>, ys: seq<T>)
    ensures |Unique(xs)| <= |Unique(xs + ys)| && Unique(xs + ys)[..|Unique(xs)|] == Unique(xs)
  {
    ExtendUnique(xs, ys);
    ExtendPrefix(Unique(xs), ys);
  }

  lemma UniquePrefixOfFour<T>(a: seq<T>, b: seq<T>, c: seq<T>, d: seq<T>)
    ensures |Unique(a)| <= |Unique(a + b + c + d)| && Unique(a + b + c + d)[..|Unique(a)|] == Unique(a)
  {
    assert a + b + c + d == a + (b + c + d);
    UniquePrefix(a, b + c + d);
  }
}
