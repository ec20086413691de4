/** Python's sorted(): a stable descending sort by a (major, minor) key, used for
    `sorted(..., key=..., reverse=True)`, and the ascending lexicographic sort of strings. */
module Ranking {
  import opened Seqs

  datatype Rank = Rank(major: real, minor: real)

  /** The tuple comparison a >= b. */
  predicate AtLeast(a: Rank, b: Rank) {
    a.major > b.major || (a.major == b.major && a.minor >= b.minor)
  }

  ghost predicate SortedDesc<T>(s: seq<T>, key: T -> Rank) {
    forall i, j :: 0 <= i < j < |s| ==> AtLeast(key(s[i]), key(s[j]))
  }

  /** Putting an element in front of a descending list whose elements it dominates keeps it descending. */
  lemma ConsSorted<T>(h: T, s: seq<T>, key: T -> Rank)
    requires SortedDesc(s, key)
    requires forall y :: y in s ==> AtLeast(key(h), key(y))
    ensures SortedDesc([h] + s, key)
  {
    var r := [h] + s;
    forall i, j | 0 <= i < j < |r| ensures AtLeast(key(r[i]), key(r[j])) {
      assert r[j] == s[j - 1];
      if i > 0 {
        assert r[i] == s[i - 1];
      }
    }
  }

  /** The head of a descending list dominates the rest of it. */
  lemma HeadDominates<T>(s: seq<T>, key: T -> Rank)
    requires SortedDesc(s, key) && |s| > 0
    ensures forall y :: y in s[1..] ==> AtLeast(key(s[0]), key(y))
  {
    forall y | y in s[1..] ensures AtLeast(key(s[0]), key(y)) {
      var m :| 0 <= m < |s[1..]| && s[1..][m] == y;
      assert s[m + 1] == y;
    }
  }

  /** Places `x` in front of the first element it is at least as large as, so that of two
      elements with the same key, the one inserted later (earlier in the input) comes first. */
  function Insert<T>(x: T, s: seq<T>, key: T -> Rank): (r: seq<T>)
    requires SortedDesc(s, key)
    ensures SortedDesc(r, key)
    ensures multiset(r) == multiset(s) + multiset{x}
  {
    if s == [] || AtLeast(key(x), key(s[0])) then
      ConsSorted(x, s, key);
      [x] + s
    else
      var t := Insert(x, s[1..], key);
      assert s == [s[0]] + s[1..];
      HeadDominates(s, key);
      assert forall y :: y in t ==> y == x || y in s[1..] by {
        forall y | y in t ensures y == x || y in s[1..] {
          assert y in multiset(t);
        }
      }
      ConsSorted(s[0], t, key);
      [s[0]] + t
  }

  /** sorted(s, key=key, reverse=True): a descending permutation of `s`. */
  function SortByRank<T>(s: seq<T>, key: T -> Rank): (r: seq<T>)
    ensures SortedDesc(r, key)
    ensures multiset(r) == multiset(s)
    ensures |r| == |s|
  {
    if s == [] then []
    else
      assert s == [s[0]] + s[1..];
      Insert(s[0], SortByRank(s[1..], key), key)
  }

  /** [x for x in s if p(x)]: the elements that pass, each as often as in `s`, in their order. */
  function KeepWhere<T(!new)>(s: seq<T>, p: T -> bool): (r: seq<T>)
    ensures forall x :: multiset(r)[x] == if p(x) then multiset(s)[x] else 0
    ensures forall x :: x in r ==> p(x)
    ensures |r| <= |s|
  {
    if s == [] then []
    else
      var rest := KeepWhere(s[1..], p);
      assert s == [s[0]] + s[1..];
      if p(s[0]) then [s[0]] + rest else rest
  }

  /** Filtering two permutations of each other gives permutations of each other. */
  lemma KeepWherePermutation<T(!new)>(a: seq<T>, b: seq<T>, p: T -> bool)
    requires multiset(a) == multiset(b)
    ensures multiset(KeepWhere(a, p)) == multiset(KeepWhere(b, p))
  {
    var ka, kb := KeepWhere(a, p), KeepWhere(b, p);
    forall x ensures multiset(ka)[x] == multiset(kb)[x] {
    }
  }

  /** Filtering a descending list keeps it descending, so filtering after sorting keeps the order. */
  lemma {:induction false} KeepWhereSorted<T(!new)>(s: seq<T>, p: T -> bool, key: T -> Rank)
    requires SortedDesc(s, key)
    ensures SortedDesc(KeepWhere(s, p), key)
  {
    if s != [] {
      assert SortedDesc(s[1..], key);
      KeepWhereSorted(s[1..], p, key);
      var rest := KeepWhere(s[1..], p);
      if p(s[0]) {
        HeadDominates(s, key);
        assert forall y :: y in rest ==> y in s[1..] by {
          forall y | y in rest ensures y in s[1..] {
            assert y in multiset(rest);
          }
        }
        ConsSorted(s[0], rest, key);
      }
    }
  }

  // ---------------------------------------------------------------------------------------
  // Strings in Python's order (code point by code point, a proper prefix first).

  predicate LexLe(a: string, b: string)
  {
    if a == [] then true
    else if b == [] then false
    else if a[0] != b[0] then a[0] < b[0]
    else LexLe(a[1..], b[1..])
  }

  lemma {:induction false} LexTotal(a: string, b: string)
    ensures LexLe(a, b) || LexLe(b, a)
  {
    if a != [] && b != [] && a[0] == b[0] { LexTotal(a[1..], b[1..]); }
  }

  lemma {:induction false} LexReflexive(a: string)
    ensures LexLe(a, a)
  {
    if a != [] { LexReflexive(a[1..]); }
  }

  lemma {:induction false} LexAntisymmetric(a: string, b: string)
    requires LexLe(a, b) && LexLe(b, a)
    ensures a == b
  {
    if a != [] && b != [] {
      LexAntisymmetric(a[1..], b[1..]);
      assert a == [a[0]] + a[1..] && b == [b[0]] + b[1..];
    }
  }

  lemma {:induction false} LexTransitive(a: string, b: string, c: string)
    requires LexLe(a, b) && LexLe(b, c)
    ensures LexLe(a, c)
  {
    if a != [] && b != [] && c != [] && a[0] == b[0] && b[0] == c[0] {
      LexTransitive(a[1..], b[1..], c[1..]);
    }
  }

  ghost predicate SortedStrings(s: seq<string>) {
    forall i, j :: 0 <= i < j < |s| ==> LexLe(s[i], s[j])
  }

  function InsertString(x: string, s: seq<string>): (r: seq<string>)
    requires SortedStrings(s)
    ensures SortedStrings(r)
    ensures multiset(r) == multiset(s) + multiset{x}
  {
    if s == [] || LexLe(x, s[0]) then
      InsertFrontSorted(x, s);
      [x] + s
    else
      LexTotal(x, s[0]);
      var t := InsertString(x, s[1..]);
      assert s == [s[0]] + s[1..];
      InsertBehindSorted(x, s, t);
      [s[0]] + t
  }

  lemma InsertFrontSorted(x: string, s: seq<string>)
    requires SortedStrings(s)
    requires s == [] || LexLe(x, s[0])
    ensures SortedStrings([x] + s)
  {
    var r := [x] + s;
    forall i, j | 0 <= i < j < |r| ensures LexLe(r[i], r[j]) {
      if i == 0 {
        if j > 1 { LexTransitive(x, s[0], s[j - 1]); }
      } else {
        assert r[i] == s[i - 1] && r[j] == s[j - 1];
      }
    }
  }

  lemma InsertBehindSorted(x: string, s: seq<string>, t: seq<string>)
    requires s != [] && SortedStrings(s) && SortedStrings(t)
    requires LexLe(s[0], x)
    requires multiset(t) == multiset(s[1..]) + multiset{x}
    ensures SortedStrings([s[0]] + t)
  {
    var r := [s[0]] + t;
    forall i, j | 0 <= i < j < |r| ensures LexLe(r[i], r[j]) {
      if i == 0 {
        var y := t[j - 1];
        assert y in multiset(t);
        if y != x {
          assert y in multiset(s[1..]);
          var m :| 0 <= m < |s[1..]| && s[1..][m] == y;
          assert s[m + 1] == y;
        }
      } else {
        assert r[i] == t[i - 1] && r[j] == t[j - 1];
      }
    }
  }

  /** sorted() of a list of strings. */
  function SortStrings(s: seq<string>): (r: seq<string>)
    ensures SortedStrings(r)
    ensures multiset(r) == multiset(s)
  {
    if s == [] then []
    else
      assert s == [s[0]] + s[1..];
      InsertString(s[0], SortStrings(s[1..]))
  }

  lemma SortedTail(a: seq<string>)
    requires SortedStrings(a) && a != []
    ensures SortedStrings(a[1..])
  {
    forall i, j | 0 <= i < j < |a| - 1 ensures LexLe(a[1..][i], a[1..][j]) {
      assert a[1..][i] == a[i + 1] && a[1..][j] == a[j + 1];
    }
  }

  lemma SortedHeadLeast(a: seq<string>, y: string)
    requires SortedStrings(a) && y in a
    ensures LexLe(a[0], y)
  {
    var j :| 0 <= j < |a| && a[j] == y;
    if j == 0 { LexReflexive(y); }
  }

  /** Two sorted lists with the same elements start with the same element. */
  lemma SortedSameHead(a: seq<string>, b: seq<string>)
    requires SortedStrings(a) && SortedStrings(b) && a != []
    requires multiset(a) == multiset(b)
    ensures b != [] && a[0] == b[0]
  {
    assert a[0] in multiset(b);
    var x, y := a[0], b[0];
    assert y in multiset(a);
    SortedHeadLeast(a, y);
    SortedHeadLeast(b, x);
    LexAntisymmetric(x, y);
  }

  /** Removing the same first element from two permutations of each other leaves permutations. */
  lemma TailsPermutation(a: seq<string>, b: seq<string>)
    requires a != [] && b != [] && a[0] == b[0]
    requires multiset(a) == multiset(b)
    ensures multiset(a[1..]) == multiset(b[1..])
  {
    assert a == [a[0]] + a[1..] && b == [b[0]] + b[1..];
    assert multiset(a[1..]) == multiset(a) - multiset{a[0]};
    assert multiset(b[1..]) == multiset(b) - multiset{b[0]};
  }

  /** Two sorted lists with the same elements are the same list. */
  lemma {:induction false} SortedUnique(a: seq<string>, b: seq<string>)
    requires SortedStrings(a) && SortedStrings(b)
    requires multiset(a) == multiset(b)
    ensures a == b
    decreases |a|
  {
    if a == [] {
      assert |b| == |multiset(b)| == 0;
    } else {
      SortedSameHead(a, b);
      TailsPermutation(a, b);
      SortedTail(a);
      SortedTail(b);
      SortedUnique(a[1..], b[1..]);
      assert a == [a[0]] + a[1..] && b == [b[0]] + b[1..];
    }
  }

  /** sorted() of a list depends only on which elements it has, with their multiplicities. */
  lemma SortStringsPermutation(a: seq<string>, b: seq<string>)
    requires multiset(a) == multiset(b)
    ensures SortStrings(a) == SortStrings(b)
  {
    SortedUnique(SortStrings(a), SortStrings(b));
  }
}
