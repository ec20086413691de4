/** Facts about sequences used as Python lists: distinctness, element sets, counting and sums. */
module Seqs {

  /** No element occurs twice (a Python list built from a dict's keys or a set). */
  ghost predicate Distinct<T>(s: seq<T>) {
    forall i, j :: 0 <= i < j < |s| ==> s[i] != s[j]
  }

  /** Dropping the last element of a repetition-free list leaves one that does not contain it. */
  lemma DistinctPrefix<T>(s: seq<T>)
    requires Distinct(s) && s != []
    ensures Distinct(s[..|s| - 1])
    ensures s[|s| - 1] !in s[..|s| - 1]
  {
    var prefix := s[..|s| - 1];
    forall i | 0 <= i < |prefix| ensures prefix[i] != s[|s| - 1] {
      assert prefix[i] == s[i];
    }
  }

  /** The set of elements of a list, Python's set(s). */
  function Elems<T(==,!new)>(s: seq<T>): (r: set<T>)
    ensures forall x :: x in r <==> x in s
  {
    set x | x in s
  }

  /** The list without repetitions: the last occurrence of each element is kept. */
  function Dedup<T(==,!new)>(s: seq<T>): (r: seq<T>)
    ensures Distinct(r)
    ensures forall x :: x in r <==> x in s
    ensures Distinct(s) ==> r == s
  {
    if s == [] then []
    else
      var rest := Dedup(s[1..]);
      if s[0] in rest then rest
      else
        var r := [s[0]] + rest;
        assert forall i :: 0 < i < |r| ==> r[i] == rest[i - 1];
        r
  }

  lemma {:induction false} ElemsCard<T(!new)>(s: seq<T>)
    ensures |Elems(s)| <= |s|
    ensures Distinct(s) ==> |Elems(s)| == |s|
  {
    if s != [] {
      ElemsCard(s[1..]);
      assert Elems(s) == {s[0]} + Elems(s[1..]);
      if Distinct(s) {
        assert Distinct(s[1..]);
        assert s[0] !in Elems(s[1..]);
      }
    }
  }

  lemma SubsetCard<T>(a: set<T>, b: set<T>)
    requires a <= b
    ensures |a| <= |b|
  {
    assert b == a + (b - a);
  }

  /** How many elements of `s` (counted with repetition) occur in `pool`:
      Python's len([x for x in s if x in pool]). */
  function Count<T(==)>(s: seq<T>, pool: seq<T>): (n: nat)
    ensures n <= |s|
  {
    if s == [] then 0 else (if s[0] in pool then 1 else 0) + Count(s[1..], pool)
  }

  /** When `s` has no repetitions, it cannot hit `pool` more often than `pool` has distinct elements. */
  lemma {:induction false} CountDistinctBound<T(!new)>(s: seq<T>, pool: seq<T>)
    requires Distinct(s)
    ensures Count(s, pool) == |Elems(s) * Elems(pool)|
    ensures Count(s, pool) <= |pool|
  {
    if s == [] {
      assert Elems(s) * Elems(pool) == {};
    } else {
      assert Distinct(s[1..]);
      CountDistinctBound(s[1..], pool);
      var rest := Elems(s[1..]) * Elems(pool);
      assert s[0] !in rest;
      if s[0] in pool {
        assert Elems(s) * Elems(pool) == {s[0]} + rest;
      } else {
        assert Elems(s) * Elems(pool) == rest;
      }
    }
    SubsetCard(Elems(s) * Elems(pool), Elems(pool));
    ElemsCard(pool);
  }

  /** The elements of `s` that occur in `pool`, in order: [x for x in s if x in pool]. */
  function KeepIn<T(==,!new)>(s: seq<T>, pool: set<T>): (r: seq<T>)
    ensures |r| <= |s|
    ensures forall x :: x in r <==> x in s && x in pool
  {
    if s == [] then [] else (if s[0] in pool then [s[0]] else []) + KeepIn(s[1..], pool)
  }

  /** [f(x) for x in s]. */
  function Map<T, U>(s: seq<T>, f: T -> U): (r: seq<U>)
    ensures |r| == |s|
    ensures forall i :: 0 <= i < |s| ==> r[i] == f(s[i])
  {
    if s == [] then [] else Map(s[..|s| - 1], f) + [f(s[|s| - 1])]
  }

  /** Mapping one element more appends its image. */
  lemma MapPrefix<T, U>(s: seq<T>, i: int, f: T -> U)
    requires 0 <= i < |s|
    ensures Map(s[..i + 1], f) == Map(s[..i], f) + [f(s[i])]
  {
    assert s[..i + 1][..i] == s[..i];
  }

  /** Sum of f over the list, Python's sum(f(x) for x in s). */
  function Sum<T>(s: seq<T>, f: T -> real): real
  {
    if s == [] then 0.0 else Sum(s[..|s| - 1], f) + f(s[|s| - 1])
  }

  lemma {:induction false} SumConcat<T>(p: seq<T>, q: seq<T>, f: T -> real)
    ensures Sum(p + q, f) == Sum(p, f) + Sum(q, f)
  {
    if q != [] {
      assert (p + q)[..|p + q| - 1] == p + q[..|q| - 1];
      SumConcat(p, q[..|q| - 1], f);
    } else {
      assert p + q == p;
    }
  }

  /** A sum depends only on the multiset of summands, so sorting does not change it. */
  lemma {:induction false} SumPermutation<T>(a: seq<T>, b: seq<T>, f: T -> real)
    requires multiset(a) == multiset(b)
    ensures Sum(a, f) == Sum(b, f)
    decreases |a|
  {
    if a == [] {
      assert |b| == |multiset(b)| == 0;
    } else {
      var n := |a| - 1;
      var x := a[n];
      assert a == a[..n] + [x];
      assert x in multiset(b);
      var j :| 0 <= j < |b| && b[j] == x;
      var b' := b[..j] + b[j + 1..];
      assert b == b[..j] + [x] + b[j + 1..];
      assert multiset(b') == multiset(b) - multiset{x};
      assert multiset(a[..n]) == multiset(a) - multiset{x};
      SumPermutation(a[..n], b', f);
      SumConcat(b[..j] + [x], b[j + 1..], f);
      SumConcat(b[..j], [x], f);
      SumConcat(b[..j], b[j + 1..], f);
      assert Sum([x], f) == f(x) by { assert [x][..0] == []; }
    }
  }

  /** [f(x) for x in xs if x != skip]. */
  function FilterMap<T(==), U>(xs: seq<T>, skip: T, f: T -> U): (r: seq<U>)
    ensures |r| == |xs| - Count(xs, [skip])
  {
    if xs == [] then [] else (if xs[0] == skip then [] else [f(xs[0])]) + FilterMap(xs[1..], skip, f)
  }

  /** The kept images are exactly the images of the kept elements. */
  lemma {:induction false} FilterMapMembers<T, U>(xs: seq<T>, skip: T, f: T -> U, y: U)
    ensures y in FilterMap(xs, skip, f) <==> exists x :: x in xs && x != skip && y == f(x)
  {
    if xs != [] {
      var rest := xs[1..];
      FilterMapMembers(rest, skip, f, y);
      assert xs == [xs[0]] + rest;
      if y in FilterMap(xs, skip, f) && !(xs[0] != skip && y == f(xs[0])) {
        var x :| x in rest && x != skip && y == f(x);
        assert x in xs;
      }
      if exists x :: x in xs && x != skip && y == f(x) {
        var x :| x in xs && x != skip && y == f(x);
        if x != xs[0] {
          assert x in rest;
        }
      }
    }
  }

  /** Without an element to skip, every image stays in its place. */
  lemma {:induction false} FilterMapInOrder<T, U>(xs: seq<T>, skip: T, f: T -> U)
    requires skip !in xs
    ensures |FilterMap(xs, skip, f)| == |xs|
    ensures forall i :: 0 <= i < |xs| ==> FilterMap(xs, skip, f)[i] == f(xs[i])
  {
    if xs != [] {
      assert xs == [xs[0]] + xs[1..];
      FilterMapInOrder(xs[1..], skip, f);
      var r := FilterMap(xs, skip, f);
      assert forall i :: 0 < i < |r| ==> r[i] == FilterMap(xs[1..], skip, f)[i - 1];
    }
  }
}
