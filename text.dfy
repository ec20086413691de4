/** The handful of Python string operations the scorers use: lower(), strip(), split(sep),
    sep.join(...) and the substring test `needle in haystack`. Case folding and whitespace are
    the ASCII ones (see README). */
module Text {
  import opened Wrappers

  predicate IsUpper(c: char) { 'A' <= c <= 'Z' }

  /** The characters Python's str.strip() removes that lie in the ASCII range. */
  predicate IsSpace(c: char) { 9 <= c as int <= 13 || 28 <= c as int <= 32 }

  function LowerChar(c: char): (r: char)
    ensures !IsUpper(r)
    ensures !IsUpper(c) ==> r == c
  {
    if IsUpper(c) then (c as int + 32) as char else c
  }

  predicate IsLower(s: string) { forall i :: 0 <= i < |s| ==> !IsUpper(s[i]) }

  /** str.lower(): same length, every letter folded, nothing else touched. */
  function Lower(s: string): (r: string)
    ensures |r| == |s|
    ensures forall i :: 0 <= i < |s| ==> r[i] == LowerChar(s[i])
    ensures IsLower(r)
    ensures IsLower(s) ==> r == s
  {
    if s == [] then [] else [LowerChar(s[0])] + Lower(s[1..])
  }

  function TrimStart(s: string): (r: string)
    ensures |r| <= |s| && r == s[|s| - |r|..]
    ensures r == [] || !IsSpace(r[0])
    ensures forall i :: 0 <= i < |s| - |r| ==> IsSpace(s[i])
  {
    if s != [] && IsSpace(s[0]) then TrimStart(s[1..]) else s
  }

  function TrimEnd(s: string): (r: string)
    ensures |r| <= |s| && r == s[..|r|]
    ensures r == [] || !IsSpace(r[|r| - 1])
    ensures forall i :: |r| <= i < |s| ==> IsSpace(s[i])
  {
    if s != [] && IsSpace(s[|s| - 1]) then TrimEnd(s[..|s| - 1]) else s
  }

  /** str.strip(): the longest slice of `s` that neither starts nor ends with whitespace,
      obtained by removing only whitespace. */
  function Strip(s: string): (r: string)
    ensures exists i, j ::
      && 0 <= i <= j <= |s| && r == s[i..j]
      && (forall k :: 0 <= k < i ==> IsSpace(s[k]))
      && (forall k :: j <= k < |s| ==> IsSpace(s[k]))
    ensures r == [] || (!IsSpace(r[0]) && !IsSpace(r[|r| - 1]))
  {
    var t := TrimStart(s);
    var r := TrimEnd(t);
    var i := |s| - |t|;
    assert r == s[i..i + |r|];
    r
  }

  lemma StripKeepsLower(s: string)
    requires IsLower(s)
    ensures IsLower(Strip(s))
  {
  }

  /** A string `x.lower().strip()` can give: lower case, no surrounding whitespace. */
  predicate Normalized(x: string) {
    IsLower(x) && (x == [] || (!IsSpace(x[0]) && !IsSpace(x[|x| - 1])))
  }

  /** `x.lower().strip()`. */
  function Clean(x: string): (r: string)
    ensures Normalized(r)
  {
    StripKeepsLower(Lower(x));
    Strip(Lower(x))
  }

  /** `p` is a prefix of `s`. */
  predicate StartsWith(s: string, p: string) { |p| <= |s| && s[..|p|] == p }

  /** Python's `needle in haystack` for strings (the empty string occurs everywhere). */
  predicate Contains(haystack: string, needle: string)
  {
    StartsWith(haystack, needle) || (haystack != [] && Contains(haystack[1..], needle))
  }

  /** `p` occurs in `s` starting at index `k`. */
  predicate OccursAt(s: string, p: string, k: nat) { k + |p| <= |s| && s[k..k + |p|] == p }

  /** An occurrence one place further into `s` is an occurrence in its tail. */
  lemma OccursShift(s: string, p: string, k: nat)
    requires |s| > 0
    ensures OccursAt(s, p, k + 1) <==> OccursAt(s[1..], p, k)
  {
    if k + 1 + |p| <= |s| {
      var a, b := s[k + 1..k + 1 + |p|], s[1..][k..k + |p|];
      assert |a| == |b|;
      forall m | 0 <= m < |a| ensures a[m] == b[m] {
        assert a[m] == s[k + 1 + m];
        assert b[m] == s[1..][k + m] == s[k + 1 + m];
      }
      assert a == b;
    }
  }

  /** Index of the leftmost occurrence of `sep` in `s`. */
  function Find(s: string, sep: string): (r: Option<nat>)
    requires |sep| > 0
    ensures r.Some? ==> OccursAt(s, sep, r.value)
    ensures r.Some? ==> forall k: nat :: k < r.value ==> !OccursAt(s, sep, k)
    ensures r.None? ==> forall k: nat :: !OccursAt(s, sep, k)
  {
    if |s| < |sep| then None
    else if StartsWith(s, sep) then Some(0)
    else
      var rest := Find(s[1..], sep);
      assert forall k: nat :: OccursAt(s, sep, k + 1) <==> OccursAt(s[1..], sep, k) by {
        forall k: nat ensures OccursAt(s, sep, k + 1) <==> OccursAt(s[1..], sep, k) {
          OccursShift(s, sep, k);
        }
      }
      assert !OccursAt(s, sep, 0);
      match rest
      case None =>
        assert forall k: nat :: !OccursAt(s, sep, k) by {
          forall k: nat ensures !OccursAt(s, sep, k) {
            if k > 0 { assert OccursAt(s, sep, (k - 1) + 1) <==> OccursAt(s[1..], sep, k - 1); }
          }
        }
        None
      case Some(j) =>
        assert forall k: nat :: k < j + 1 ==> !OccursAt(s, sep, k) by {
          forall k: nat | k < j + 1 ensures !OccursAt(s, sep, k) {
            if k > 0 { assert OccursAt(s, sep, (k - 1) + 1) <==> OccursAt(s[1..], sep, k - 1); }
          }
        }
        Some(j + 1)
  }

  /** str.split(sep) for a non-empty separator: the pieces between the leftmost
      non-overlapping occurrences of `sep`. There is always at least one piece. */
  function Split(s: string, sep: string): (r: seq<string>)
    requires |sep| > 0
    ensures |r| >= 1
    decreases |s|
  {
    match Find(s, sep)
    case None => [s]
    case Some(i) => [s[..i]] + Split(s[i + |sep|..], sep)
  }

  /** sep.join(pieces). */
  function Join(pieces: seq<string>, sep: string): string
  {
    if pieces == [] then ""
    else if |pieces| == 1 then pieces[0]
    else pieces[0] + sep + Join(pieces[1..], sep)
  }

  /** Splitting loses nothing: joining the pieces back gives the original string. */
  lemma {:induction false} JoinSplit(s: string, sep: string)
    requires |sep| > 0
    ensures Join(Split(s, sep), sep) == s
    decreases |s|
  {
    match Find(s, sep)
    case None =>
    case Some(i) =>
      var rest := s[i + |sep|..];
      var tail := Split(rest, sep);
      JoinSplit(rest, sep);
      var pieces := [s[..i]] + tail;
      assert Split(s, sep) == pieces;
      assert pieces[1..] == tail;
      assert Join(pieces, sep) == s[..i] + sep + Join(tail, sep);
      assert s == s[..i] + s[i..i + |sep|] + rest;
  }
}
