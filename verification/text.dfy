/**
 * The Python string built-ins the hand-advice CLI relies on: `str.strip()`,
 * `str.lower()`, `str.upper()`, `str.replace(old, new)`, `str.startswith`
 * and the substring test `k in s`. Case mapping is the ASCII one.
 */
module Text {

  /** Python's `str.isspace()` character set, which `str.strip()` removes. */
  predicate IsSpace(c: char) {
    || ('\t' <= c <= '\r')
    || ('\U{1C}' <= c <= '\U{1F}')
    || c == ' '
    || c == '\U{85}'
    || c == '\U{A0}'
    || c == '\U{1680}'
    || ('\U{2000}' <= c <= '\U{200A}')
    || c == '\U{2028}'
    || c == '\U{2029}'
    || c == '\U{202F}'
    || c == '\U{205F}'
    || c == '\U{3000}'
  }

  /** Leading whitespace removed: a suffix of `s` whose dropped prefix is all whitespace. */
  function TrimLeft(s: string): (r: string)
    ensures |r| <= |s| && r == s[|s| - |r|..]
    ensures r == [] || !IsSpace(r[0])
    ensures forall k :: 0 <= k < |s| - |r| ==> IsSpace(s[k])
  {
    if |s| > 0 && IsSpace(s[0]) then TrimLeft(s[1..]) else s
  }

  /** Trailing whitespace removed: a prefix of `s` whose dropped suffix is all whitespace. */
  function TrimRight(s: string): (r: string)
    ensures |r| <= |s| && r == s[..|r|]
    ensures r == [] || !IsSpace(r[|r| - 1])
    ensures forall k :: |r| <= k < |s| ==> IsSpace(s[k])
  {
    if |s| > 0 && IsSpace(s[|s| - 1]) then TrimRight(s[..|s| - 1]) else s
  }

  /** `s.strip()`: neither end of the result is whitespace, and a string already so is kept. */
  function Strip(s: string): (r: string)
    ensures |r| <= |s|
    ensures r == [] || (!IsSpace(r[0]) && !IsSpace(r[|r| - 1]))
    ensures (s == [] || (!IsSpace(s[0]) && !IsSpace(s[|s| - 1]))) ==> r == s
  {
    TrimRight(TrimLeft(s))
  }

  /**
   * What `s.strip()` removes: the result is the slice of `s` starting at the
   * returned offset, and everything before and after it is whitespace.
   */
  lemma StripIsSlice(s: string) returns (i: nat)
    ensures i + |Strip(s)| <= |s| && Strip(s) == s[i..i + |Strip(s)|]
    ensures forall k :: 0 <= k < i ==> IsSpace(s[k])
    ensures forall k :: i + |Strip(s)| <= k < |s| ==> IsSpace(s[k])
  {
    var l := TrimLeft(s);
    var r := TrimRight(l);
    assert Strip(s) == r;
    i := |s| - |l|;
    PrefixOfSuffix(s, i, r);
  }

  /** A prefix of `s[i..]` followed only by whitespace is a slice of `s` followed only by whitespace. */
  lemma PrefixOfSuffix(s: string, i: nat, r: string)
    requires i + |r| <= |s| && r == s[i..][..|r|]
    requires forall k :: |r| <= k < |s| - i ==> IsSpace(s[i..][k])
    ensures r == s[i..i + |r|]
    ensures forall k :: i + |r| <= k < |s| ==> IsSpace(s[k])
  {
    assert s[i..][..|r|] == s[i..i + |r|];
    forall k | i + |r| <= k < |s|
      ensures IsSpace(s[k])
    {
      assert s[k] == s[i..][k - i];
    }
  }

  function LowerChar(c: char): char {
    if 'A' <= c <= 'Z' then (c as int + 32) as char else c
  }

  function UpperChar(c: char): char {
    if 'a' <= c <= 'z' then (c as int - 32) as char else c
  }

  /** `s.lower()`, character by character. */
  function Lower(s: string): (r: string)
    ensures |r| == |s|
    ensures forall i :: 0 <= i < |s| ==> r[i] == LowerChar(s[i])
  {
    if s == [] then [] else [LowerChar(s[0])] + Lower(s[1..])
  }

  /** `s.upper()`, character by character. */
  function Upper(s: string): (r: string)
    ensures |r| == |s|
    ensures forall i :: 0 <= i < |s| ==> r[i] == UpperChar(s[i])
  {
    if s == [] then [] else [UpperChar(s[0])] + Upper(s[1..])
  }

  /** A string without upper-case letters is its own lower case. */
  lemma LowerKeepsLower(s: string)
    requires forall k :: 0 <= k < |s| ==> !('A' <= s[k] <= 'Z')
    ensures Lower(s) == s
  {
  }

  /** Upper-casing forgets any earlier lower-casing or upper-casing. */
  lemma UpperAbsorbsCase(s: string)
    ensures Upper(Lower(s)) == Upper(s)
    ensures Upper(Upper(s)) == Upper(s)
  {
    assert forall i :: 0 <= i < |s| ==> Upper(Lower(s))[i] == Upper(s)[i];
    assert forall i :: 0 <= i < |s| ==> Upper(Upper(s))[i] == Upper(s)[i];
  }

  /** `s.startswith(p)`. */
  predicate StartsWith(s: string, p: string) {
    |p| <= |s| && s[..|p|] == p
  }

  /** `s.startswith(p)` holds exactly when `s` is `p` followed by some string. */
  lemma StartsWithConcat(s: string, p: string)
    ensures StartsWith(s, p) <==> exists t :: s == p + t
  {
    if StartsWith(s, p) {
      assert s == p + s[|p|..];
    }
  }

  /**
   * Python's substring test `k in s`, searched from the left: it needs a
   * string at least as long as the key (`ContainsAt` and `ContainsWitness`
   * relate it to the offsets where the key occurs).
   */
  predicate Contains(k: string, s: string)
    decreases |s|
  {
    if |k| > |s| then false
    else if s[..|k|] == k then true
    else Contains(k, s[1..])
  }

  /** A string contains itself. */
  lemma ContainsSelf(k: string)
    ensures Contains(k, k)
  {
  }

  /** A key longer than the string cannot occur in it. */
  lemma NotInShorter(k: string, s: string)
    requires |k| > |s|
    ensures !Contains(k, s)
  {
  }

  /** A key of the same length as the string, differing in its first character, does not occur in it. */
  lemma NotAtHeadOfEqualLength(k: string, s: string)
    requires |k| == |s| > 0 && s[0] != k[0]
    ensures !Contains(k, s)
  {
  }

  /** `k in s` holds exactly when `k` occurs in `s` at some offset. */
  lemma {:induction false} ContainsAt(k: string, s: string, i: nat)
    requires i + |k| <= |s| && s[i..i + |k|] == k
    ensures Contains(k, s)
    decreases i
  {
    if s[..|k|] != k {
      assert s[1..][i - 1..i - 1 + |k|] == s[i..i + |k|];
      ContainsAt(k, s[1..], i - 1);
    }
  }

  /** Every occurrence of `k` in `s` found by `Contains` lies at some offset. */
  lemma {:induction false} ContainsWitness(k: string, s: string) returns (i: nat)
    requires Contains(k, s)
    ensures i + |k| <= |s| && s[i..i + |k|] == k
    decreases |s|
  {
    if s[..|k|] == k {
      i := 0;
    } else {
      var j := ContainsWitness(k, s[1..]);
      assert s[1..][j..j + |k|] == s[j + 1..j + 1 + |k|];
      i := j + 1;
    }
  }

  /** A substring of a substring is a substring. */
  lemma ContainsTransitive(a: string, b: string, s: string)
    requires Contains(a, b) && Contains(b, s)
    ensures Contains(a, s)
  {
    var j := ContainsWitness(a, b);
    var i := ContainsWitness(b, s);
    var x, y := s[i + j..i + j + |a|], b[j..j + |a|];
    forall t | 0 <= t < |a| ensures x[t] == y[t] {
      assert y[t] == b[j + t] == s[i..i + |b|][j + t] == s[i + j + t];
    }
    assert x == y;
    ContainsAt(a, s, i + j);
  }

  /**
   * `s.replace(k, v)` for a non-empty `k`: every non-overlapping occurrence of
   * `k`, found left to right, is replaced by `v`. A string in which `k` does
   * not occur is returned unchanged.
   */
  function Replace(s: string, k: string, v: string): (r: string)
    requires |k| > 0
    ensures !Contains(k, s) ==> r == s
    decreases |s|
  {
    if |s| < |k| then s
    else if s[..|k|] == k then v + Replace(s[|k|..], k, v)
    else [s[0]] + Replace(s[1..], k, v)
  }

  /** A key whose first character does not occur in `s` does not occur in `s`. */
  lemma {:induction false} AbsentFirstChar(k: string, s: string)
    requires |k| > 0 && forall i :: 0 <= i < |s| ==> s[i] != k[0]
    ensures !Contains(k, s)
    decreases |s|
  {
    if |k| <= |s| {
      assert s[..|k|][0] != k[0];
      AbsentFirstChar(k, s[1..]);
    }
  }

  /** An occurrence of the key at the front is rewritten, and the search goes on after it. */
  lemma ReplaceAtHead(k: string, rest: string, v: string)
    requires |k| > 0
    ensures Replace(k + rest, k, v) == v + Replace(rest, k, v)
  {
    assert (k + rest)[..|k|] == k;
    assert (k + rest)[|k|..] == rest;
  }

  /** A prefix free of the key's first character is copied unchanged. */
  lemma {:induction false} ReplaceSkipsPrefix(p: string, rest: string, k: string, v: string)
    requires |k| > 0 && forall i :: 0 <= i < |p| ==> p[i] != k[0]
    ensures Replace(p + rest, k, v) == p + Replace(rest, k, v)
    decreases |p|
  {
    if p != [] {
      var s := p + rest;
      ReplaceSkipsPrefix(p[1..], rest, k, v);
      assert s[1..] == p[1..] + rest;
      if |s| < |k| {
        assert Replace(rest, k, v) == rest;
      } else {
        assert s[..|k|][0] == p[0];
        assert Replace(s, k, v) == [p[0]] + Replace(s[1..], k, v);
        assert [p[0]] + (p[1..] + Replace(rest, k, v)) == p + Replace(rest, k, v);
      }
    } else {
      assert p + rest == rest;
    }
  }

  /**
   * A key of two or more characters does not occur in `s` when no place
   * where it could start holds its first two characters.
   */
  lemma {:induction false} AbsentFirstPair(k: string, s: string)
    requires |k| >= 2
    requires forall i :: 0 <= i <= |s| - |k| ==> s[i] != k[0] || s[i + 1] != k[1]
    ensures !Contains(k, s)
    decreases |s|
  {
    if |k| <= |s| {
      assert s[..|k|][0] == s[0] && s[..|k|][1] == s[1];
      AbsentFirstPair(k, s[1..]);
    }
  }
}
