/** The few Python `str` operations the bot relies on, stated over `seq<char>`. */
module PyStr {

  /** `str.lower()` on one character; only the ASCII letters A-Z are folded. */
  function LowerChar(c: char): char
  {
    if 'A' <= c <= 'Z' then (c as int + 32) as char else c
  }

  /** `s.lower()`. */
  function Lower(s: string): (r: string)
    ensures |r| == |s|
    ensures forall i :: 0 <= i < |s| ==> r[i] == LowerChar(s[i])
  {
    seq(|s|, i requires 0 <= i < |s| => LowerChar(s[i]))
  }

  /** `needle in hay` for two strings: needle occurs in hay at some position. */
  predicate Contains(hay: string, needle: string)
    decreases |hay|
  {
    needle <= hay || (hay != [] && Contains(hay[1..], needle))
  }

  /** An occurrence of needle at position k is found by `in`, and every hit of `in` is such an occurrence. */
  lemma {:induction false} ContainsIff(hay: string, needle: string)
    ensures Contains(hay, needle) <==> exists k :: 0 <= k <= |hay| && needle <= hay[k..]
    decreases |hay|
  {
    if Contains(hay, needle) {
      if !(needle <= hay) {
        ContainsIff(hay[1..], needle);
        var k :| 0 <= k <= |hay[1..]| && needle <= hay[1..][k..];
        assert hay[1..][k..] == hay[k + 1..];
      } else {
        assert hay[0..] == hay;
      }
    }
    if exists k :: 0 <= k <= |hay| && needle <= hay[k..] {
      var k :| 0 <= k <= |hay| && needle <= hay[k..];
      if k > 0 {
        assert hay[1..][k - 1..] == hay[k..];
        ContainsIff(hay[1..], needle);
      } else {
        assert hay[0..] == hay;
      }
    }
  }

  /** The empty string is in every string (`"" in s` is true). */
  lemma EmptyIsContained(hay: string)
    ensures Contains(hay, [])
  {
  }

  /** What is in a prefix of hay is in hay. */
  lemma ContainsInPrefix(hay: string, pre: string, needle: string)
    requires pre <= hay && Contains(pre, needle)
    ensures Contains(hay, needle)
  {
    ContainsIff(pre, needle);
    var k :| 0 <= k <= |pre| && needle <= pre[k..];
    assert needle <= hay[k..];
    ContainsIff(hay, needle);
  }

  /** A string holding a character that hay lacks is not in hay. */
  lemma {:induction false} MissingCharNotContained(hay: string, needle: string, c: char)
    requires c in needle && c !in hay
    ensures !Contains(hay, needle)
    decreases |hay|
  {
    var i :| 0 <= i < |needle| && needle[i] == c;
    assert i < |hay| ==> hay[i] != c;
    if hay != [] {
      MissingCharNotContained(hay[1..], needle, c);
    }
  }

  /** `s.split(sep)[0]`: the text of s before the first occurrence of sep, or all of s. */
  function SplitHead(s: string, sep: string): (r: string)
    requires sep != []
    ensures r <= s
    ensures r == s || sep <= s[|r|..]
    ensures forall i :: 0 <= i < |r| ==> !(sep <= s[i..])
    decreases |s|
  {
    if sep <= s then []
    else if s == [] then []
    else
      var rest := SplitHead(s[1..], sep);
      assert forall i :: 1 <= i <= |s| ==> s[1..][i - 1..] == s[i..];
      [s[0]] + rest
  }

  /** The characters `str.isspace()` accepts (and so `str.strip()` removes). */
  predicate IsSpace(c: char)
  {
    || c == ' ' || '\t' <= c <= '\r' || '\U{1C}' <= c <= '\U{1F}'
    || c == '\U{85}' || c == '\U{A0}' || c == '\U{1680}' || '\U{2000}' <= c <= '\U{200A}'
    || c == '\U{2028}' || c == '\U{2029}' || c == '\U{202F}' || c == '\U{205F}' || c == '\U{3000}'
  }

  /** `s.lstrip()`: the suffix of s without leading white space. */
  function StripLeft(s: string): (r: string)
    ensures |r| <= |s| && r == s[|s| - |r|..]
    ensures r == [] || !IsSpace(r[0])
    ensures forall i :: 0 <= i < |s| - |r| ==> IsSpace(s[i])
    decreases |s|
  {
    if s != [] && IsSpace(s[0]) then StripLeft(s[1..]) else s
  }

  /** `s.rstrip()`: the prefix of s without trailing white space. */
  function StripRight(s: string): (r: string)
    ensures r <= s
    ensures r == [] || !IsSpace(r[|r| - 1])
    ensures forall i :: |r| <= i < |s| ==> IsSpace(s[i])
    decreases |s|
  {
    if s != [] && IsSpace(s[|s| - 1]) then StripRight(s[..|s| - 1]) else s
  }

  /** The bounds of the stripped slice: i leading and |s| - j trailing white-space characters. */
  lemma StripBounds(s: string) returns (i: nat, j: nat)
    ensures i <= j <= |s| && StripRight(StripLeft(s)) == s[i..j] && StripsTo(s, i, j)
  {
    var left := StripLeft(s);
    var both := StripRight(left);
    i, j := SliceBounds(s, left, both);
    SpaceAround(s, i, both);
  }

  /** A prefix r of a suffix t of s is the slice of s between their two cut points. */
  lemma SliceBounds(s: string, t: string, r: string) returns (i: nat, j: nat)
    requires |t| <= |s| && t == s[|s| - |t|..] && r <= t
    ensures i == |s| - |t| && j == i + |r| && j <= |s| && r == s[i..j]
  {
    i := |s| - |t|;
    j := i + |r|;
    assert r == t[..|r|];
  }

  /** White space before i, and after the prefix r of s[i..], is the white space around the slice s[i..i + |r|]. */
  lemma SpaceAround(s: string, i: nat, r: string)
    requires i <= |s| && r <= s[i..]
    requires forall k :: 0 <= k < i ==> IsSpace(s[k])
    requires forall m :: |r| <= m < |s[i..]| ==> IsSpace(s[i..][m])
    ensures i + |r| <= |s| && StripsTo(s, i, i + |r|)
  {
    TrailingSpace(s, i, r);
  }

  /** White space after the prefix r of s[i..] is white space of s from i + |r| on. */
  lemma TrailingSpace(s: string, i: nat, r: string)
    requires i <= |s| && r <= s[i..]
    requires forall m :: |r| <= m < |s[i..]| ==> IsSpace(s[i..][m])
    ensures forall m :: i + |r| <= m < |s| ==> IsSpace(s[m])
  {
    forall m | i + |r| <= m < |s|
      ensures IsSpace(s[m])
    {
      assert s[m] == s[i..][m - i];
    }
  }

  /** Stripping both ends leaves a slice of s with only white space around it. */
  lemma StripIsSlice(s: string)
    ensures exists i, j :: 0 <= i <= j <= |s| && StripRight(StripLeft(s)) == s[i..j] && StripsTo(s, i, j)
    ensures Contains(s, StripRight(StripLeft(s)))
  {
    var i, j := StripBounds(s);
    SliceIsContained(s, i, j);
  }

  /** Every slice of s is in s. */
  lemma SliceIsContained(s: string, i: nat, j: nat)
    requires i <= j <= |s|
    ensures Contains(s, s[i..j])
  {
    assert s[i..j] <= s[i..];
    ContainsIff(s, s[i..j]);
  }

  /** Every character of s before i and from j on is white space. */
  predicate StripsTo(s: string, i: int, j: int)
    requires 0 <= i <= j <= |s|
  {
    (forall k :: 0 <= k < i ==> IsSpace(s[k])) && (forall k :: j <= k < |s| ==> IsSpace(s[k]))
  }

  /** `s.strip()`: s without leading and trailing white space. */
  function Strip(s: string): (r: string)
    ensures exists i, j :: 0 <= i <= j <= |s| && r == s[i..j] && StripsTo(s, i, j)
    ensures Contains(s, r)
    ensures r == [] || (!IsSpace(r[0]) && !IsSpace(r[|r| - 1]))
  {
    StripIsSlice(s);
    StripRight(StripLeft(s))
  }

  /** Lower-casing twice is lower-casing once. */
  lemma LowerIdempotent(s: string)
    ensures Lower(Lower(s)) == Lower(s)
  {
  }
}
