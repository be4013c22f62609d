/** The few string operations of Python and JavaScript that the core relies on:
    `startswith`, `endswith`, `replace(pattern, "")`, `strip()` and the search
    for a character. Strings are sequences of Unicode scalar values. */
module Strings {

  import opened Wrappers

  predicate StartsWith(s: string, prefix: string) {
    |prefix| <= |s| && s[..|prefix|] == prefix
  }

  predicate EndsWith(s: string, suffix: string) {
    |suffix| <= |s| && s[|s| - |suffix|..] == suffix
  }

  /** `pat` occurs in `s` at position `i`. */
  predicate OccursAt(s: string, pat: string, i: nat) {
    i + |pat| <= |s| && s[i..i + |pat|] == pat
  }

  predicate Contains(s: string, pat: string) {
    exists i: nat | i <= |s| :: OccursAt(s, pat, i)
  }

  /** The characters Python's `str.isspace()` accepts. */
  predicate IsSpace(c: char) {
    || c == ' ' || c == '\t' || c == '\n' || c == '\r'
    || c == '\U{B}' || c == '\U{C}'
    || ('\U{1C}' <= c <= '\U{1F}')
    || c == '\U{85}' || c == '\U{A0}' || c == '\U{1680}'
    || ('\U{2000}' <= c <= '\U{200A}')
    || c == '\U{2028}' || c == '\U{2029}' || c == '\U{202F}' || c == '\U{205F}' || c == '\U{3000}'
  }

  /** Python's `s.lstrip()`: the longest suffix of `s` that does not begin with
      white space. */
  function TrimStart(s: string): (r: string)
    ensures |r| <= |s| && r == s[|s| - |r|..]
    ensures forall i :: 0 <= i < |s| - |r| ==> IsSpace(s[i])
    ensures r == [] || !IsSpace(r[0])
  {
    if s == [] || !IsSpace(s[0]) then s else TrimStart(s[1..])
  }

  /** Python's `s.rstrip()`: the longest prefix of `s` that does not end with
      white space. */
  function TrimEnd(s: string): (r: string)
    ensures |r| <= |s| && r == s[..|r|]
    ensures forall i :: |r| <= i < |s| ==> IsSpace(s[i])
    ensures r == [] || !IsSpace(r[|r| - 1])
  {
    if s == [] || !IsSpace(s[|s| - 1]) then s else TrimEnd(s[..|s| - 1])
  }

  /** White space after a prefix `r` of a suffix `t` of `s` is white space
      at the end of `s`. */
  lemma TrailingSpaceOfSuffix(s: string, t: string, r: string)
    requires |t| <= |s| && t == s[|s| - |t|..]
    requires |r| <= |t| && r == t[..|r|]
    requires forall k :: |r| <= k < |t| ==> IsSpace(t[k])
    ensures forall k :: |s| - |t| + |r| <= k < |s| ==> IsSpace(s[k])
  {
    forall k | |s| - |t| + |r| <= k < |s| ensures IsSpace(s[k]) {
      assert s[k] == t[k - (|s| - |t|)];
    }
  }

  /** Python's `s.strip()`: the slice of `s` left once the white space at
      both ends is cut off. */
  function Strip(s: string): (r: string)
    ensures exists i, j :: (0 <= i <= j <= |s| && r == s[i..j]
                            && (forall k :: 0 <= k < i ==> IsSpace(s[k]))
                            && (forall k :: j <= k < |s| ==> IsSpace(s[k])))
    ensures r == [] || (!IsSpace(r[0]) && !IsSpace(r[|r| - 1]))
  {
    var t := TrimStart(s);
    var r := TrimEnd(t);
    TrailingSpaceOfSuffix(s, t, r);
    assert r == s[|s| - |t|..|s| - |t| + |r|];
    r
  }

  /** Python's `s.replace(pat, "")`: occurrences are found from left to right
      and never overlap. */
  function RemoveAll(s: string, pat: string): (r: string)
    requires pat != []
    ensures |r| <= |s|
    decreases |s|
  {
    if s == [] then []
    else if StartsWith(s, pat) then RemoveAll(s[|pat|..], pat)
    else [s[0]] + RemoveAll(s[1..], pat)
  }

  /** A string in which `pat` does not occur is left as it is. */
  lemma {:induction false} RemoveAllAbsent(s: string, pat: string)
    requires pat != [] && !Contains(s, pat)
    ensures RemoveAll(s, pat) == s
    decreases |s|
  {
    if s != [] {
      if StartsWith(s, pat) {
        assert OccursAt(s, pat, 0);
      }
      forall i: nat | OccursAt(s[1..], pat, i) ensures false {
        assert s[1..][i..i + |pat|] == s[i + 1..i + 1 + |pat|];
        assert OccursAt(s, pat, i + 1);
      }
      RemoveAllAbsent(s[1..], pat);
    }
  }

  /** When the first character of `pat` does not occur again in `pat`, no
      occurrence can straddle the end of `t`, so removing `pat` from `t + pat`
      gives back `t` whenever `pat` does not occur in `t`. */
  lemma {:induction false} RemoveAllTrailing(t: string, pat: string)
    requires pat != [] && pat[0] !in pat[1..]
    requires !Contains(t, pat)
    ensures RemoveAll(t + pat, pat) == t
    decreases |t|
  {
    var s := t + pat;
    if t == [] {
      assert s[|pat|..] == [];
    } else {
      if |t| >= |pat| {
        assert s[..|pat|] == t[..|pat|];
        assert !OccursAt(t, pat, 0);
      } else {
        assert s[|t|] == pat[0];
        assert pat[|t|] == pat[1..][|t| - 1];
      }
      assert !StartsWith(s, pat);
      forall i: nat | OccursAt(t[1..], pat, i) ensures false {
        assert t[1..][i..i + |pat|] == t[i + 1..i + 1 + |pat|];
        assert OccursAt(t, pat, i + 1);
      }
      RemoveAllTrailing(t[1..], pat);
      assert s[1..] == t[1..] + pat;
      assert s[0] == t[0];
    }
  }

  /** An occurrence in `s[1..]` is one in `s`, one position further on. */
  lemma OccursShift(s: string, pat: string, i: nat)
    requires s != []
    ensures OccursAt(s[1..], pat, i) <==> OccursAt(s, pat, i + 1)
  {
    if i + 1 + |pat| <= |s| {
      assert s[1..][i..i + |pat|] == s[i + 1..i + 1 + |pat|];
    }
  }

  /** Python's `s.find(pat)`: the first position at which `pat` occurs. */
  function FindFirst(s: string, pat: string): (r: Option<nat>)
    requires pat != []
    ensures r.None? <==> !Contains(s, pat)
    ensures r.Some? ==> OccursAt(s, pat, r.value)
    ensures r.Some? ==> forall j: nat :: j < r.value ==> !OccursAt(s, pat, j)
    decreases |s|
  {
    if |s| < |pat| then None
    else if StartsWith(s, pat) then
      assert OccursAt(s, pat, 0);
      Some(0)
    else
      match FindFirst(s[1..], pat)
      case None =>
        assert forall i: nat | 0 < i <= |s| :: !OccursAt(s, pat, i) by {
          forall i: nat | 0 < i <= |s| ensures !OccursAt(s, pat, i) {
            OccursShift(s, pat, i - 1);
          }
        }
        None
      case Some(i) =>
        OccursShift(s, pat, i);
        assert forall j: nat | 0 < j < i + 1 :: !OccursAt(s, pat, j) by {
          forall j: nat | 0 < j < i + 1 ensures !OccursAt(s, pat, j) {
            OccursShift(s, pat, j - 1);
          }
        }
        Some(i + 1)
  }

  /** Python's `pat.join(pieces)`. */
  function Join(pieces: seq<string>, pat: string): string
    decreases |pieces|
  {
    if pieces == [] then []
    else if |pieces| == 1 then pieces[0]
    else pieces[0] + pat + Join(pieces[1..], pat)
  }

  /** Python's `"".join(pieces)`. */
  function Concat(pieces: seq<string>): string
    decreases |pieces|
  {
    if pieces == [] then [] else pieces[0] + Concat(pieces[1..])
  }

  /** The part of `s` before its first occurrence of `pat` holds none. */
  lemma {:induction false} NoneBeforeFirst(s: string, pat: string, i: nat)
    requires pat != [] && i <= |s|
    requires forall j: nat :: j < i ==> !OccursAt(s, pat, j)
    ensures !Contains(s[..i], pat)
  {
    forall j: nat | j <= i && OccursAt(s[..i], pat, j) ensures false {
      assert s[..i][j..j + |pat|] == s[j..j + |pat|];
      assert OccursAt(s, pat, j);
    }
  }

  /** Python's `s.split(pat)`: the pieces between the occurrences of `pat`
      found from left to right, none of which holds `pat`. */
  function Split(s: string, pat: string): (r: seq<string>)
    requires pat != []
    ensures r != [] && Join(r, pat) == s
    ensures forall k :: 0 <= k < |r| ==> !Contains(r[k], pat)
    ensures |r| > 1 ==> FindFirst(s, pat) == Some(|r[0]|)
    decreases |s|
  {
    match FindFirst(s, pat)
    case None => [s]
    case Some(i) =>
      var rest := Split(s[i + |pat|..], pat);
      NoneBeforeFirst(s, pat, i);
      var r := [s[..i]] + rest;
      assert r[1..] == rest;
      assert s == s[..i] + pat + s[i + |pat|..];
      r
  }

  /** When `pat` does not occur in `a + pat + b` before position `|a|`, the
      first removal is the `pat` after `a`. */
  lemma {:induction false} RemoveAllFirst(a: string, b: string, pat: string)
    requires pat != []
    requires forall j: nat :: j < |a| ==> !OccursAt(a + pat + b, pat, j)
    ensures RemoveAll(a + pat + b, pat) == a + RemoveAll(b, pat)
    decreases |a|
  {
    var s := a + pat + b;
    if a == [] {
      assert s == pat + b && s[..|pat|] == pat && s[|pat|..] == b;
    } else {
      assert !OccursAt(s, pat, 0);
      assert s[1..] == a[1..] + pat + b;
      forall j: nat | j < |a[1..]| ensures !OccursAt(a[1..] + pat + b, pat, j) {
        OccursShift(s, pat, j);
      }
      RemoveAllFirst(a[1..], b, pat);
      assert s[0] == a[0] && a == [a[0]] + a[1..];
    }
  }

  /** `s.replace(pat, "")` is `"".join(s.split(pat))`: every occurrence found
      from left to right is removed, and nothing else. */
  lemma {:induction false} RemoveAllIsConcatOfSplit(s: string, pat: string)
    requires pat != []
    ensures RemoveAll(s, pat) == Concat(Split(s, pat))
    decreases |s|
  {
    match FindFirst(s, pat)
    case None =>
      RemoveAllAbsent(s, pat);
    case Some(i) =>
      var a, b := s[..i], s[i + |pat|..];
      assert s == a + pat + b;
      RemoveAllFirst(a, b, pat);
      RemoveAllIsConcatOfSplit(b, pat);
      var r := Split(s, pat);
      assert r == [a] + Split(b, pat);
      assert r[1..] == Split(b, pat);
  }

  /** For a pattern whose first character does not occur again in it (such
      as `.mp3`), joining pieces that hold no `pat` and removing `pat` again
      gives back exactly the pieces, glued together. */
  lemma {:induction false} RemoveAllOfJoin(pieces: seq<string>, pat: string)
    requires pat != [] && pat[0] !in pat[1..]
    requires forall k :: 0 <= k < |pieces| ==> !Contains(pieces[k], pat)
    ensures RemoveAll(Join(pieces, pat), pat) == Concat(pieces)
    decreases |pieces|
  {
    if pieces == [] {
    } else if |pieces| == 1 {
      RemoveAllAbsent(pieces[0], pat);
      assert Concat(pieces) == pieces[0] + Concat([]);
    } else {
      var a, b := pieces[0], Join(pieces[1..], pat);
      var s := a + pat + b;
      forall j: nat | j < |a| ensures !OccursAt(s, pat, j) {
        if j + |pat| <= |a| {
          assert !OccursAt(a, pat, j);
          assert a[j..j + |pat|] == s[j..j + |pat|];
        } else {
          var d := |a| - j;
          assert pat[d] != pat[0] by { assert pat[d] == pat[1..][d - 1]; }
          assert s[j..j + |pat|][d] == s[|a|] == pat[0];
        }
      }
      RemoveAllFirst(a, b, pat);
      RemoveAllOfJoin(pieces[1..], pat);
    }
  }

  /** The position of the first `c` in `s`, as JavaScript's `indexOf` and the
      split of Python's `str.split(c, 1)` find it. */
  function IndexOf(s: string, c: char): (r: Option<nat>)
    ensures r.None? <==> c !in s
    ensures r.Some? ==> r.value < |s| && s[r.value] == c && c !in s[..r.value]
  {
    if s == [] then None
    else if s[0] == c then Some(0)
    else match IndexOf(s[1..], c)
      case None => None
      case Some(i) =>
        assert s[..i + 1] == [s[0]] + s[1..][..i];
        Some(i + 1)
  }
}
